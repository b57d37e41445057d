/** The air-quality chart's data preparation (`AirQualityIndex`): monthly
    readings keyed by `"YYYY-MM"` become chart entries, split into the
    historical line and the dashed forecast line by comparing each month
    with the current one; plus the axis-tick and tooltip formatting. The
    current year and month are parameters. */
module AirQuality {
  import opened Wrappers
  import opened Text

  /** A reading as the chart receives it: a number, or a value that reads
      as NaN (a string `parseFloat` cannot read, for one). */
  datatype Reading = Numeric(x: real) | NotANumber

  /** One point of the chart. */
  datatype Entry = Entry(date: string, aqi: real, isForecast: bool)

  const MonthNames: seq<string> :=
    ["Jan", "Feb", "Mar", "Apr", "May", "Jun", "Jul", "Aug", "Sep", "Oct", "Nov", "Dec"]

  /** `Number(x.toFixed(2))`: rounded to two decimals, ties away from zero. */
  function Round2(x: real): (r: real)
    ensures x - 0.005 <= r <= x + 0.005
    ensures (r * 100.0).Floor as real == r * 100.0
    ensures x >= 0.0 ==> r >= 0.0
  {
    var n: int := if x >= 0.0 then Hundredths(x) else 0 - Hundredths(-x) as int;
    assert (n as real).Floor == n;
    assert n as real / 100.0 * 100.0 == n as real;
    n as real / 100.0
  }

  /** The number of hundredths in a non-negative number, rounded to the
      nearest with ties upward. */
  function Hundredths(y: real): (n: nat)
    requires y >= 0.0
    ensures y * 100.0 - 0.5 < n as real <= y * 100.0 + 0.5
  {
    (y * 100.0 + 0.5).Floor
  }

  /** `isNaN(value) ? 0 : Number(value.toFixed(2))` */
  function AqiOf(reading: Reading): (aqi: real)
    ensures reading.NotANumber? ==> aqi == 0.0
    ensures reading.Numeric? ==> reading.x - 0.005 <= aqi <= reading.x + 0.005
  {
    match reading
    case NotANumber => 0.0
    case Numeric(x) => Round2(x)
  }

  predicate IsDigit(c: char) {
    '0' <= c <= '9'
  }

  predicate AllDigits(s: string) {
    forall i :: 0 <= i < |s| ==> IsDigit(s[i])
  }

  /** The value of a string of decimal digits. */
  function DigitsValue(s: string): (n: nat)
    requires AllDigits(s)
  {
    if s == [] then 0
    else DigitsValue(s[..|s| - 1]) * 10 + (s[|s| - 1] as int - '0' as int)
  }

  /** `Number(piece)` for the pieces of a date key: surrounding whitespace
      is ignored, the empty string is 0, decimal digits are their value;
      anything else reads as NaN (`None`). */
  function NumberOf(piece: string): (r: Option<int>)
    ensures r.Some? ==> r.value >= 0
  {
    var t := Trim(piece);
    if AllDigits(t) then Some(DigitsValue(t)) else None
  }

  /** A piece of decimal digits reads as its value; whitespace around
      digits is ignored. */
  lemma NumberOfDigits(s: string, pad: string, padEnd: string)
    requires AllDigits(s)
    requires AllSpace(pad) && AllSpace(padEnd)
    ensures NumberOf(s) == Some(DigitsValue(s))
    ensures s != [] ==> NumberOf(pad + s + padEnd) == Some(DigitsValue(s))
  {
    if s != [] {
      assert IsDigit(s[0]) && IsDigit(s[|s| - 1]);
      TrimOfTrimmed(s);
      TrimAroundTrimmed(pad, s, padEnd);
    } else {
      assert TrimStart(s) == [];
    }
  }

  /** The year piece of `date.split("-")`. */
  function YearPiece(date: string): (year: string)
    ensures |year| <= |date| && year == date[..|year|] && '-' !in year
    ensures |year| < |date| ==> date[|year|] == '-'
  {
    TakeUntil(date, '-')
  }

  /** The month piece of `date.split("-")`, `None` (undefined) when the key
      has no `-`. */
  function MonthPiece(date: string): (month: Option<string>)
    ensures month.Some? <==> '-' in date
    ensures month.Some? ==> '-' !in month.value
  {
    var year := YearPiece(date);
    if |year| < |date| then Some(TakeUntil(date[|year| + 1..], '-')) else None
  }

  /** `year > currentYear || (year === currentYear && month > currentMonth)`,
      where a NaN or undefined operand makes every comparison false. */
  predicate IsForecast(year: Option<int>, month: Option<int>, currentYear: int, currentMonth: int) {
    year.Some? &&
    (year.value > currentYear || (year.value == currentYear && month.Some? && month.value > currentMonth))
  }

  /** The entry built from one `[date, reading]` pair. */
  function MakeEntry(date: string, reading: Reading, currentYear: int, currentMonth: int): (e: Entry)
    ensures e.date == date && e.aqi == AqiOf(reading)
  {
    var year := NumberOf(YearPiece(date));
    var month := if MonthPiece(date).Some? then NumberOf(MonthPiece(date).value) else None;
    Entry(date, AqiOf(reading), IsForecast(year, month, currentYear, currentMonth))
  }

  /** `Object.entries(monthly_aqi).map(...)`: one entry per key, in order. */
  function BuildData(readings: seq<(string, Reading)>, currentYear: int, currentMonth: int): (data: seq<Entry>)
    ensures |data| == |readings|
    ensures forall i :: 0 <= i < |readings| ==> data[i].date == readings[i].0
    ensures forall i :: 0 <= i < |readings| && readings[i].1.NotANumber? ==> data[i].aqi == 0.0
    ensures forall i :: 0 <= i < |readings| ==>
      data[i] == MakeEntry(readings[i].0, readings[i].1, currentYear, currentMonth)
  {
    seq(|readings|, i requires 0 <= i < |readings| => MakeEntry(readings[i].0, readings[i].1, currentYear, currentMonth))
  }

  /** `data.filter(d => !d.isForecast)` */
  function Historical(data: seq<Entry>): (h: seq<Entry>)
    ensures forall e :: e in h ==> e in data && !e.isForecast
  {
    if data == [] then []
    else if !data[0].isForecast then [data[0]] + Historical(data[1..])
    else Historical(data[1..])
  }

  /** `data.filter(d => d.isForecast)` */
  function Forecast(data: seq<Entry>): (f: seq<Entry>)
    ensures forall e :: e in f ==> e in data && e.isForecast
  {
    if data == [] then []
    else if data[0].isForecast then [data[0]] + Forecast(data[1..])
    else Forecast(data[1..])
  }

  /** The two lines partition the data: every entry is in exactly one of
      them, as often as in the data. */
  lemma {:induction false} SplitIsPartition(data: seq<Entry>)
    ensures multiset(Historical(data)) + multiset(Forecast(data)) == multiset(data)
    ensures |Historical(data)| + |Forecast(data)| == |data|
  {
    if data != [] {
      SplitIsPartition(data[1..]);
      assert data == [data[0]] + data[1..];
    }
  }

  /** Each line keeps the data's order: splitting a concatenation splits
      each part in place. */
  lemma {:induction false} SplitKeepsOrder(a: seq<Entry>, b: seq<Entry>)
    ensures Historical(a + b) == Historical(a) + Historical(b)
    ensures Forecast(a + b) == Forecast(a) + Forecast(b)
  {
    HistoricalKeepsOrder(a, b);
    ForecastKeepsOrder(a, b);
  }

  lemma {:induction false} HistoricalKeepsOrder(a: seq<Entry>, b: seq<Entry>)
    ensures Historical(a + b) == Historical(a) + Historical(b)
  {
    if a == [] {
      assert a + b == b;
    } else {
      var ab := a + b;
      assert ab[0] == a[0] && ab[1..] == a[1..] + b;
      HistoricalKeepsOrder(a[1..], b);
      if !a[0].isForecast {
        calc {
          Historical(ab);
          [a[0]] + Historical(a[1..] + b);
          [a[0]] + (Historical(a[1..]) + Historical(b));
          ([a[0]] + Historical(a[1..])) + Historical(b);
        }
      }
    }
  }

  lemma {:induction false} ForecastKeepsOrder(a: seq<Entry>, b: seq<Entry>)
    ensures Forecast(a + b) == Forecast(a) + Forecast(b)
  {
    if a == [] {
      assert a + b == b;
    } else {
      var ab := a + b;
      assert ab[0] == a[0] && ab[1..] == a[1..] + b;
      ForecastKeepsOrder(a[1..], b);
      if a[0].isForecast {
        calc {
          Forecast(ab);
          [a[0]] + Forecast(a[1..] + b);
          [a[0]] + (Forecast(a[1..]) + Forecast(b));
          ([a[0]] + Forecast(a[1..])) + Forecast(b);
        }
      }
    }
  }

  /** The forecast line is drawn exactly when some entry is a forecast. */
  predicate ShowsForecastLine(data: seq<Entry>) {
    |Forecast(data)| > 0
  }

  lemma {:induction false} ForecastLineIffSomeForecast(data: seq<Entry>)
    ensures ShowsForecastLine(data) <==> exists i :: 0 <= i < |data| && data[i].isForecast
  {
    if data != [] {
      ForecastLineIffSomeForecast(data[1..]);
      if exists i :: 0 <= i < |data[1..]| && data[1..][i].isForecast {
        var i :| 0 <= i < |data[1..]| && data[1..][i].isForecast;
        assert data[i + 1].isForecast;
      }
      if exists i :: 0 <= i < |data| && data[i].isForecast {
        var i :| 0 <= i < |data| && data[i].isForecast;
        if i > 0 {
          assert data[1..][i - 1].isForecast;
        }
      }
    }
  }

  /** For real months (1..12) an entry is a forecast exactly when its month
      comes strictly after the current one; the current month itself is
      historical. */
  lemma ForecastIsLaterMonth(year: int, month: int, currentYear: int, currentMonth: int)
    requires 1 <= month <= 12 && 1 <= currentMonth <= 12
    ensures IsForecast(Some(year), Some(month), currentYear, currentMonth)
        <==> year * 12 + month > currentYear * 12 + currentMonth
    ensures !IsForecast(Some(currentYear), Some(currentMonth), currentYear, currentMonth)
  {
  }

  /** An entry keyed `<digits>-<digits>` is a forecast exactly when its year
      and month, read as numbers, come after the current ones. */
  lemma EntryOfKey(years: string, months: string, reading: Reading, currentYear: int, currentMonth: int)
    requires AllDigits(years) && AllDigits(months)
    ensures MakeEntry(years + "-" + months, reading, currentYear, currentMonth).isForecast
        == IsForecast(Some(DigitsValue(years)), Some(DigitsValue(months)), currentYear, currentMonth)
  {
    KeyParts(years, months);
    NumberOfDigits(years, [], []);
    NumberOfDigits(months, [], []);
  }

  /** A well-formed key `<digits>-<digits>` splits into its year and month. */
  lemma {:induction false} KeyParts(years: string, months: string)
    requires AllDigits(years) && AllDigits(months)
    ensures YearPiece(years + "-" + months) == years
    ensures MonthPiece(years + "-" + months) == Some(months)
  {
    var date := years + "-" + months;
    assert '-' !in years by {
      forall k | 0 <= k < |years| ensures years[k] != '-' {
        assert IsDigit(years[k]);
      }
    }
    assert '-' !in months by {
      forall k | 0 <= k < |months| ensures months[k] != '-' {
        assert IsDigit(months[k]);
      }
    }
    TakeUntilUpToSeparator(years, months, '-');
    assert date[|years| + 1..] == months;
    TakeUntilWhole(months, '-');
  }

  lemma {:induction false} TakeUntilUpToSeparator(a: string, b: string, sep: char)
    requires sep !in a
    ensures TakeUntil(a + [sep] + b, sep) == a
  {
    if a != [] {
      assert (a + [sep] + b)[1..] == a[1..] + [sep] + b;
      TakeUntilUpToSeparator(a[1..], b, sep);
    }
  }

  lemma TakeUntilWhole(a: string, sep: char)
    requires sep !in a
    ensures TakeUntil(a, sep) == a
  {
  }

  /** The axis tick: `${month}/${year.slice(2)}`, where a missing month
      prints as "undefined". */
  function TickLabel(date: string): string {
    var year := YearPiece(date);
    var month := MonthPiece(date);
    (if month.Some? then month.value else "undefined") + "/" + (if |year| >= 2 then year[2..] else "")
  }

  /** `"YYYY-MM"` is labelled `"MM/YY"`. */
  lemma TickLabelOfKey(years: string, months: string)
    requires AllDigits(years) && AllDigits(months) && |years| == 4 && |months| == 2
    ensures TickLabel(years + "-" + months) == [months[0], months[1], '/', years[2], years[3]]
  {
    KeyParts(years, months);
  }

  /** The leading decimal digits of a string. */
  function LeadingDigits(s: string): (r: string)
    ensures AllDigits(r) && |r| <= |s| && r == s[..|r|]
    ensures |r| < |s| ==> !IsDigit(s[|r|])
  {
    if s == [] || !IsDigit(s[0]) then [] else [s[0]] + LeadingDigits(s[1..])
  }

  /** `parseInt(piece)`: leading whitespace skipped, then the leading
      decimal digits; NaN (`None`) when there are none. */
  function ParseInt(piece: string): (r: Option<int>)
    ensures r.Some? ==> r.value >= 0
    ensures r.Some? <==> LeadingDigits(TrimStart(piece)) != []
  {
    var digits := LeadingDigits(TrimStart(piece));
    if digits == [] then None else Some(DigitsValue(digits))
  }

  /** `monthNames[m - 1]`, undefined outside 1..12. */
  function MonthName(m: Option<int>): (r: Option<string>)
    ensures r.Some? <==> m.Some? && 1 <= m.value <= 12
    ensures r.Some? ==> r.value == MonthNames[m.value - 1]
  {
    if m.Some? && 1 <= m.value <= 12 then Some(MonthNames[m.value - 1]) else None
  }

  /** The tooltip's month name for a date key. */
  function TooltipMonth(tick: string): (name: Option<string>)
    ensures name.Some? ==> name.value in MonthNames
  {
    var month := MonthPiece(tick);
    if month.Some? then MonthName(ParseInt(month.value)) else MonthName(None)
  }

  /** For a key `"YYYY-MM"` with a month 1..12 the tooltip names that month. */
  lemma TooltipMonthOfKey(years: string, months: string)
    requires AllDigits(years) && AllDigits(months) && months != []
    requires 1 <= DigitsValue(months) <= 12
    ensures TooltipMonth(years + "-" + months) == Some(MonthNames[DigitsValue(months) - 1])
  {
    KeyParts(years, months);
    ParseIntOfDigits(months);
  }

  lemma ParseIntOfDigits(s: string)
    requires AllDigits(s) && s != []
    ensures ParseInt(s) == Some(DigitsValue(s))
  {
    assert !IsSpace(s[0]) by { assert IsDigit(s[0]); }
    assert TrimStart(s) == s;
    LeadingDigitsOfDigits(s);
  }

  lemma {:induction false} LeadingDigitsOfDigits(s: string)
    requires AllDigits(s)
    ensures LeadingDigits(s) == s
  {
    if s != [] {
      LeadingDigitsOfDigits(s[1..]);
    }
  }
}
