/** The analytics filters: dates, countries and platforms as text, turned into half-open instant windows. */
module Analytics {
  import opened Common
  import opened Events
  import opened Calendar

  datatype FilterInput = FilterInput(from: string, to: string, country: string, platform: string)

  /** A validated filter; empty country or platform means any. */
  datatype Filter = Filter(from: Option<int>, toExclusive: Option<int>, country: string, platform: string)

  datatype FilterError = FromInvalid | ToInvalid | DateRangeInvalid | PlatformInvalid

  // ---------- the YYYY-MM-DD layout ----------

  predicate IsDigit(c: char) {
    '0' <= c <= '9'
  }

  function Digit(c: char): nat
    requires IsDigit(c)
  {
    c as int - '0' as int
  }

  function DigitChar(n: nat): char
    requires n < 10
  {
    '0' + n as char
  }

  predicate DateShaped(s: string) {
    && |s| == 10 && s[4] == '-' && s[7] == '-'
    && IsDigit(s[0]) && IsDigit(s[1]) && IsDigit(s[2]) && IsDigit(s[3])
    && IsDigit(s[5]) && IsDigit(s[6]) && IsDigit(s[8]) && IsDigit(s[9])
  }

  /** What time.Parse accepts for this layout: four, two and two digits that make a date. */
  function ParseLayout(s: string): Option<Date> {
    if !DateShaped(s) then None
    else
      var d := Date(1000 * Digit(s[0]) + 100 * Digit(s[1]) + 10 * Digit(s[2]) + Digit(s[3]),
                    10 * Digit(s[5]) + Digit(s[6]),
                    10 * Digit(s[8]) + Digit(s[9]));
      if IsDate(d) then Some(d) else None
  }

  function TwoDigits(n: nat): string
    requires n < 100
  {
    [DigitChar(n / 10), DigitChar(n % 10)]
  }

  predicate Writable(d: Date) {
    IsDate(d) && 0 <= d.year <= 9999
  }

  function FormatDate(d: Date): string
    requires Writable(d)
  {
    TwoDigits(d.year / 100) + TwoDigits(d.year % 100) + "-" + TwoDigits(d.month) + "-" + TwoDigits(d.day)
  }

  lemma TwoDigitsRoundTrip(n: nat)
    requires n < 100
    ensures var s := TwoDigits(n); IsDigit(s[0]) && IsDigit(s[1]) && 10 * Digit(s[0]) + Digit(s[1]) == n
  {
  }

  lemma TwoDigitsUnique(a: char, b: char)
    requires IsDigit(a) && IsDigit(b)
    ensures TwoDigits(10 * Digit(a) + Digit(b)) == [a, b]
  {
  }

  /** Parsing inverts formatting, for every date of the years 0000 to 9999. */
  lemma ParseInvertsFormat(d: Date)
    requires Writable(d)
    ensures ParseLayout(FormatDate(d)) == Some(d)
  {
    TwoDigitsRoundTrip(d.year / 100);
    TwoDigitsRoundTrip(d.year % 100);
    TwoDigitsRoundTrip(d.month);
    TwoDigitsRoundTrip(d.day);
  }

  /** Only formatted dates parse. */
  lemma OnlyFormattedDatesParse(s: string)
    ensures ParseLayout(s).Some? ==> Writable(ParseLayout(s).value) && FormatDate(ParseLayout(s).value) == s
  {
    if ParseLayout(s).Some? {
      var d := ParseLayout(s).value;
      TwoDigitsUnique(s[0], s[1]);
      TwoDigitsUnique(s[2], s[3]);
      TwoDigitsUnique(s[5], s[6]);
      TwoDigitsUnique(s[8], s[9]);
      assert d.year / 100 == 10 * Digit(s[0]) + Digit(s[1]) && d.year % 100 == 10 * Digit(s[2]) + Digit(s[3]);
    }
  }

  // ---------- validation ----------

  /** A blank text means no date. */
  function ParseDate(value: string, error: FilterError): Result<Option<Date>, FilterError> {
    var text := TrimSpace(value);
    if text == "" then Ok(None)
    else
      var parsed := ParseLayout(text);
      if parsed.None? then Err(error) else Ok(parsed)
  }

  function InstantOf(d: Option<Date>): Option<int> {
    if d.None? then None else Some(Midnight(d.value))
  }

  /** The start of the next day, computed on the day field as AddDate(0, 0, 1) does. */
  function NextDayInstant(d: Option<Date>): Option<int> {
    if d.None? then None else Some(Midnight(Date(d.value.year, d.value.month, d.value.day + 1)))
  }

  function ValidateFilter(input: FilterInput): Result<Filter, FilterError> {
    var from := ParseDate(input.from, FromInvalid);
    if from.Err? then Err(from.error)
    else
      var to := ParseDate(input.to, ToInvalid);
      if to.Err? then Err(to.error)
      else if from.value.Some? && to.value.Some? && Midnight(to.value.value) < Midnight(from.value.value) then
        Err(DateRangeInvalid)
      else
        var platform := TrimSpace(input.platform);
        if platform != "" && platform != ANDROID && platform != IOS then Err(FilterError.PlatformInvalid)
        else Ok(Filter(InstantOf(from.value), NextDayInstant(to.value), TrimSpace(input.country), platform))
  }

  /** A text names a date, or, being blank, none. */
  ghost predicate Names(text: string, d: Option<Date>) {
    if d.None? then Blank(text) else Writable(d.value) && TrimSpace(text) == FormatDate(d.value)
  }

  ghost predicate InRange(d: Date, from: Option<Date>, to: Option<Date>) {
    && (from.Some? ==> NotAfter(from.value, d))
    && (to.Some? ==> NotAfter(d, to.value))
  }

  predicate InWindow(f: Filter, instant: int) {
    && (f.from.Some? ==> f.from.value <= instant)
    && (f.toExclusive.Some? ==> instant < f.toExclusive.value)
  }

  lemma FormattedIsTight(d: Date)
    requires Writable(d)
    ensures Tight(FormatDate(d)) && FormatDate(d) != ""
  {
  }

  /** A text parses as a date exactly when it names one. */
  lemma ParseDateNames(text: string, error: FilterError, d: Option<Date>)
    ensures ParseDate(text, error) == Ok(d) <==> Names(text, d)
  {
    var _, _ := TrimSpaceSplits(text);
    OnlyFormattedDatesParse(TrimSpace(text));
    if d.Some? && Writable(d.value) {
      ParseInvertsFormat(d.value);
      FormattedIsTight(d.value);
    }
  }

  /** A bound taken from an optional date admits exactly the instants whose date it admits. */
  lemma BoundsAreExact(from: Option<Date>, to: Option<Date>, instant: int)
    requires from.Some? ==> IsDate(from.value)
    requires to.Some? ==> IsDate(to.value)
    ensures from.Some? ==> (InstantOf(from).value <= instant <==> NotAfter(from.value, DateOf(instant)))
    ensures to.Some? ==> (instant < NextDayInstant(to).value <==> NotAfter(DateOf(instant), to.value))
  {
    if from.Some? {
      MidnightBound(instant, from.value);
    }
    if to.Some? {
      NextMidnightBound(instant, to.value);
      DayAfterIsNext(to.value);
    }
  }

  /**
   The window of an accepted filter is exact: an instant passes its two tests exactly when its UTC
   calendar date lies in the inclusive range of the two dates given.
   */
  lemma WindowIsExact(input: FilterInput, from: Option<Date>, to: Option<Date>, instant: int)
    requires Names(input.from, from) && Names(input.to, to) && ValidateFilter(input).Ok?
    ensures InWindow(ValidateFilter(input).value, instant) <==> InRange(DateOf(instant), from, to)
  {
    ParseDateNames(input.from, FromInvalid, from);
    ParseDateNames(input.to, ToInvalid, to);
    BoundsAreExact(from, to, instant);
  }

  /** A filter is accepted exactly when both dates are blank or dates, in order, and the platform is blank or known. */
  lemma FilterAcceptedIff(input: FilterInput)
    ensures ValidateFilter(input).Ok? <==>
              exists from, to ::
                && Names(input.from, from) && Names(input.to, to)
                && (from.Some? && to.Some? ==> NotAfter(from.value, to.value))
                && TrimSpace(input.platform) in {"", ANDROID, IOS}
  {
    forall d ensures ParseDate(input.from, FromInvalid) == Ok(d) <==> Names(input.from, d) {
      ParseDateNames(input.from, FromInvalid, d);
    }
    forall d ensures ParseDate(input.to, ToInvalid) == Ok(d) <==> Names(input.to, d) {
      ParseDateNames(input.to, ToInvalid, d);
    }
    var f, t := ParseDate(input.from, FromInvalid), ParseDate(input.to, ToInvalid);
    if f.Ok? && t.Ok? {
      assert Names(input.from, f.value) && Names(input.to, t.value);
      if f.value.Some? && t.value.Some? {
        MidnightOrder(f.value.value, t.value.value);
      }
    }
  }

  /** What each error is about, whatever the other checks say. */
  ghost predicate FilterFails(input: FilterInput, error: FilterError) {
    match error
    case FromInvalid => forall d :: !Names(input.from, d)
    case ToInvalid => forall d :: !Names(input.to, d)
    case DateRangeInvalid =>
      exists from, to :: Names(input.from, Some(from)) && Names(input.to, Some(to)) && Earlier(to, from)
    case PlatformInvalid => TrimSpace(input.platform) !in {"", ANDROID, IOS}
  }

  /** The place of a check in the order in which they are made. */
  function FilterRank(error: FilterError): nat {
    match error
    case FromInvalid => 0
    case ToInvalid => 1
    case DateRangeInvalid => 2
    case PlatformInvalid => 3
  }

  lemma DateErrors(input: FilterInput)
    ensures ParseDate(input.from, FromInvalid).Err? <==> FilterFails(input, FromInvalid)
    ensures ParseDate(input.to, ToInvalid).Err? <==> FilterFails(input, ToInvalid)
    ensures ParseDate(input.from, FromInvalid).Err? ==> ParseDate(input.from, FromInvalid).error == FromInvalid
    ensures ParseDate(input.to, ToInvalid).Err? ==> ParseDate(input.to, ToInvalid).error == ToInvalid
  {
    forall d ensures ParseDate(input.from, FromInvalid) == Ok(d) <==> Names(input.from, d) {
      ParseDateNames(input.from, FromInvalid, d);
    }
    forall d ensures ParseDate(input.to, ToInvalid) == Ok(d) <==> Names(input.to, d) {
      ParseDateNames(input.to, ToInvalid, d);
    }
    var f, t := ParseDate(input.from, FromInvalid), ParseDate(input.to, ToInvalid);
    assert f.Ok? ==> Names(input.from, f.value);
    assert t.Ok? ==> Names(input.to, t.value);
  }

  lemma RangeError(input: FilterInput)
    requires ParseDate(input.from, FromInvalid).Ok? && ParseDate(input.to, ToInvalid).Ok?
    ensures var f, t := ParseDate(input.from, FromInvalid).value, ParseDate(input.to, ToInvalid).value;
            FilterFails(input, DateRangeInvalid)
            <==> f.Some? && t.Some? && Midnight(t.value) < Midnight(f.value)
  {
    var f, t := ParseDate(input.from, FromInvalid).value, ParseDate(input.to, ToInvalid).value;
    forall d ensures Names(input.from, d) <==> d == f {
      ParseDateNames(input.from, FromInvalid, d);
    }
    forall d ensures Names(input.to, d) <==> d == t {
      ParseDateNames(input.to, ToInvalid, d);
    }
    assert Names(input.from, f) && Names(input.to, t);
    if f.Some? && t.Some? {
      MidnightOrder(f.value, t.value);
      NotAfterOrEarlier(f.value, t.value);
    }
  }

  ghost predicate FilterFailsFirst(input: FilterInput, error: FilterError) {
    FilterFails(input, error) && forall other | FilterRank(other) < FilterRank(error) :: !FilterFails(input, other)
  }

  lemma OneFailsFirst(input: FilterInput, a: FilterError, b: FilterError)
    requires FilterFailsFirst(input, a) && FilterFailsFirst(input, b)
    ensures a == b
  {
  }

  lemma FoundFailsFirst(input: FilterInput)
    ensures var found := ValidateFilter(input);
            if found.Err? then FilterFailsFirst(input, found.error) else forall error :: !FilterFails(input, error)
  {
    DateErrors(input);
    var found := ValidateFilter(input);
    if ParseDate(input.from, FromInvalid).Err? {
      assert found == Err(FromInvalid);
    } else if ParseDate(input.to, ToInvalid).Err? {
      assert found == Err(ToInvalid);
    } else {
      RangeError(input);
      if FilterFails(input, DateRangeInvalid) {
        assert found == Err(DateRangeInvalid);
      } else {
        assert found.Err? ==> found == Err(FilterError.PlatformInvalid);
        assert found.Err? <==> FilterFails(input, FilterError.PlatformInvalid);
      }
    }
  }

  /** A refused filter gives the error of the first check that fails. */
  lemma FilterErrorIsFirstFailing(input: FilterInput, error: FilterError)
    ensures ValidateFilter(input) == Err(error) <==> FilterFailsFirst(input, error)
  {
    FoundFailsFirst(input);
    if ValidateFilter(input).Err? && FilterFailsFirst(input, error) {
      OneFailsFirst(input, error, ValidateFilter(input).error);
    }
  }

  lemma MidnightOrder(d: Date, e: Date)
    requires IsDate(d) && IsDate(e)
    ensures Midnight(e) < Midnight(d) <==> !NotAfter(d, e)
  {
    OrderOfNumbers(d, e);
  }
}
