/** The two analytics services: raw texts checked, one query run, its answer or an error returned. */
module AnalyticsServices {
  import opened Common
  import opened Events
  import opened Calendar
  import opened Analytics
  import opened Queries
  import opened Rankings

  const METRIC := "installs"
  const DEFAULT_LIMIT: nat := 10
  const MAXIMUM_LIMIT: nat := 100
  const TWO_TO_64: nat := 0x1_0000_0000_0000_0000

  datatype ServiceError =
    | NoApp
    | Refused(reason: FilterError)
    | MetricInvalid
    | LimitInvalid
    | StoreFailed

  // ---------- the limit ----------

  /** Base ten, most significant digit first; a sign, a separator or an empty text is not a number. */
  function Decimal(s: string): Option<nat> {
    if s == [] then Some(0)
    else
      var high, low := Decimal(s[..|s| - 1]), s[|s| - 1];
      if high.None? || !IsDigit(low) then None else Some(10 * high.value + Digit(low))
  }

  function ParseUint(s: string): Option<nat> {
    if s == [] || Decimal(s).None? || Decimal(s).value >= TWO_TO_64 then None else Decimal(s)
  }

  /** The digits of a positive number, without leading zeros; nothing for 0. */
  function Digits(n: nat): string {
    if n == 0 then [] else Digits(n / 10) + [DigitChar(n % 10)]
  }

  function Zeros(k: nat): string {
    seq(k, _ => '0')
  }

  lemma {:induction false} DecimalReadsDigits(k: nat, n: nat)
    ensures Decimal(Zeros(k) + Digits(n)) == Some(n)
  {
    if n > 0 {
      DecimalReadsDigits(k, n / 10);
      var s := Zeros(k) + Digits(n);
      assert s[..|s| - 1] == Zeros(k) + Digits(n / 10);
    } else if k > 0 {
      DecimalReadsDigits(k - 1, 0);
      var s := Zeros(k) + Digits(0);
      assert s[..|s| - 1] == Zeros(k - 1) + Digits(0);
    }
  }

  lemma {:induction false} DecimalIsDigits(s: string) returns (k: nat)
    requires Decimal(s).Some?
    ensures s == Zeros(k) + Digits(Decimal(s).value)
  {
    if s == [] {
      k := 0;
    } else {
      var high, low := s[..|s| - 1], s[|s| - 1];
      k := DecimalIsDigits(high);
      var n := Decimal(s).value;
      assert s == high + [low];
      if n == 0 {
        k := k + 1;
        assert s == Zeros(k);
      } else {
        assert n / 10 == Decimal(high).value && n % 10 == Digit(low);
      }
    }
  }

  datatype RankingInput = RankingInput(metric: string, from: string, to: string, country: string, limit: string)

  function ValidateLimit(text: string): Option<nat> {
    var value := TrimSpace(text);
    if value == "" then Some(DEFAULT_LIMIT)
    else
      var parsed := ParseUint(value);
      if parsed.None? || parsed.value < 1 || parsed.value > MAXIMUM_LIMIT then None else parsed
  }

  /** Blank means the default; otherwise the text is the number in digits, perhaps after zeros, and within bounds. */
  ghost predicate NamesLimit(text: string, n: nat) {
    if Blank(text) then n == 10
    else 1 <= n <= 100 && exists k :: TrimSpace(text) == Zeros(k) + Digits(n)
  }

  lemma LimitAcceptedIff(text: string, n: nat)
    ensures ValidateLimit(text) == Some(n) <==> NamesLimit(text, n)
  {
    var _, _ := TrimSpaceSplits(text);
    var value := TrimSpace(text);
    if Decimal(value).Some? {
      var k := DecimalIsDigits(value);
    }
    if !Blank(text) && NamesLimit(text, n) {
      var k :| value == Zeros(k) + Digits(n);
      DecimalReadsDigits(k, n);
    }
  }

  // ---------- from the texts of a request to the rows counted ----------

  /**
   A row of the application, on a UTC date within the inclusive range, in the country and on the
   platform if one is given.
   */
  ghost predicate Requested(
    row: Event, app: UUID, from: Option<Date>, to: Option<Date>, country: string, platform: string)
  {
    && row.appID == app
    && InRange(DateOf(row.timestamp.instant), from, to)
    && (!Blank(country) ==> row.country == TrimSpace(country))
    && (!Blank(platform) ==> row.platform == TrimSpace(platform))
  }

  /** How many requested rows have this type. */
  ghost function CountRequested(
    table: seq<Event>, app: UUID, eventType: string,
    from: Option<Date>, to: Option<Date>, country: string, platform: string): nat
  {
    if table == [] then 0
    else
      var row := table[|table| - 1];
      CountRequested(table[..|table| - 1], app, eventType, from, to, country, platform)
      + if Requested(row, app, from, to, country, platform) && row.eventType == eventType then 1 else 0
  }

  /** The sum of the revenue of the requested purchases. */
  ghost function RevenueRequested(
    table: seq<Event>, app: UUID, from: Option<Date>, to: Option<Date>, country: string, platform: string): int
  {
    if table == [] then 0
    else
      var row := table[|table| - 1];
      RevenueRequested(table[..|table| - 1], app, from, to, country, platform)
      + if Requested(row, app, from, to, country, platform) && row.eventType == PURCHASE then row.revenueCents else 0
  }

  lemma RowRequested(row: Event, input: FilterInput, app: UUID, from: Option<Date>, to: Option<Date>)
    requires ValidateFilter(input).Ok? && Names(input.from, from) && Names(input.to, to)
    ensures Wanted(app, ValidateFilter(input).value)(row)
            <==> Requested(row, app, from, to, input.country, input.platform)
  {
    WindowIsExact(input, from, to, row.timestamp.instant);
    GivenTexts(input);
  }

  /** A filter asks for a country or a platform exactly when the text given for it is not blank. */
  lemma GivenTexts(input: FilterInput)
    requires ValidateFilter(input).Ok?
    ensures var f := ValidateFilter(input).value;
            && f.country == TrimSpace(input.country) && (f.country == "" <==> Blank(input.country))
            && f.platform == TrimSpace(input.platform) && (f.platform == "" <==> Blank(input.platform))
  {
    var _, _ := TrimSpaceSplits(input.country);
    var _, _ := TrimSpaceSplits(input.platform);
  }

  lemma {:induction false} CountsRequested(
    table: seq<Event>, input: FilterInput, app: UUID, eventType: string, from: Option<Date>, to: Option<Date>)
    requires ValidateFilter(input).Ok? && Names(input.from, from) && Names(input.to, to)
    ensures CountType(MatchingRows(table, app, ValidateFilter(input).value), eventType)
            == CountRequested(table, app, eventType, from, to, input.country, input.platform)
  {
    if table != [] {
      var init, row := table[..|table| - 1], table[|table| - 1];
      CountsRequested(init, input, app, eventType, from, to);
      RowRequested(row, input, app, from, to);
      CountSnoc(MatchingRows(init, app, ValidateFilter(input).value), row, eventType);
    }
  }

  lemma {:induction false} SumsRequested(
    table: seq<Event>, input: FilterInput, app: UUID, from: Option<Date>, to: Option<Date>)
    requires ValidateFilter(input).Ok? && Names(input.from, from) && Names(input.to, to)
    ensures Revenue(MatchingRows(table, app, ValidateFilter(input).value))
            == RevenueRequested(table, app, from, to, input.country, input.platform)
  {
    if table != [] {
      var init, row := table[..|table| - 1], table[|table| - 1];
      SumsRequested(init, input, app, from, to);
      RowRequested(row, input, app, from, to);
      RevenueSnoc(MatchingRows(init, app, ValidateFilter(input).value), row);
    }
  }

  /** The four values are the counts, by type, and the purchase revenue of the requested rows. */
  ghost predicate CountsRows(
    a: Aggregates, table: seq<Event>, app: UUID,
    from: Option<Date>, to: Option<Date>, country: string, platform: string)
  {
    && a.installs == CountRequested(table, app, INSTALL, from, to, country, platform)
    && a.sessions == CountRequested(table, app, SESSION, from, to, country, platform)
    && a.purchases == CountRequested(table, app, PURCHASE, from, to, country, platform)
    && a.revenueCents == RevenueRequested(table, app, from, to, country, platform)
  }

  /** From the raw texts of a request: what the statistics of an accepted filter count. */
  lemma StatisticsCountRequested(
    table: seq<Event>, input: FilterInput, app: UUID, from: Option<Date>, to: Option<Date>)
    requires ValidateFilter(input).Ok? && Names(input.from, from) && Names(input.to, to)
    ensures CountsRows(Statistics(table, app, ValidateFilter(input).value), table, app, from, to, input.country, input.platform)
  {
    forall eventType {
      CountsRequested(table, input, app, eventType, from, to);
    }
    SumsRequested(table, input, app, from, to);
    AggregateIs(MatchingRows(table, app, ValidateFilter(input).value));
  }

  lemma AggregateIs(rows: seq<Event>)
    ensures Aggregate(rows)
            == Aggregates(CountType(rows, INSTALL), CountType(rows, SESSION), CountType(rows, PURCHASE), Revenue(rows))
  {
  }

  // ---------- the services ----------

  function DatesOf(input: RankingInput): FilterInput {
    FilterInput(input.from, input.to, input.country, "")
  }

  function ValidateRankingFilter(input: RankingInput): Result<RankingFilter, ServiceError> {
    var dates := ValidateFilter(DatesOf(input));
    if dates.Err? then Err(Refused(dates.error))
    else
      var limit := ValidateLimit(input.limit);
      if limit.None? then Err(LimitInvalid)
      else Ok(RankingFilter(dates.value.from, dates.value.toExclusive, dates.value.country, limit.value))
  }

  /** Fewer installs come later; among equals the larger identifier does. */
  ghost predicate MostFirst(items: seq<Ranking>) {
    forall i, j | 0 <= i < j < |items| ::
      items[i].value > items[j].value || (items[i].value == items[j].value && items[i].app < items[j].app)
  }

  /** A request for rankings is refused for its dates as the filter of these would be, and else only for its limit. */
  lemma RankingRefusedFor(input: RankingInput, error: ServiceError)
    ensures ValidateRankingFilter(input) == Err(error)
            <==> || (exists reason :: error == Refused(reason) && FilterFailsFirst(DatesOf(input), reason))
                 || (error == LimitInvalid && (forall reason :: !FilterFailsFirst(DatesOf(input), reason))
                     && forall n: nat :: !NamesLimit(input.limit, n))
  {
    forall reason ensures ValidateFilter(DatesOf(input)) == Err(reason) <==> FilterFailsFirst(DatesOf(input), reason) {
      FilterErrorIsFirstFailing(DatesOf(input), reason);
    }
    forall n: nat ensures ValidateLimit(input.limit) == Some(n) <==> NamesLimit(input.limit, n) {
      LimitAcceptedIff(input.limit, n);
    }
    var dates, limit := ValidateFilter(DatesOf(input)), ValidateLimit(input.limit);
    assert dates.Err? ==> FilterFailsFirst(DatesOf(input), dates.error);
    assert limit.Some? ==> NamesLimit(input.limit, limit.value);
  }

  /**
   With a known metric, acceptable dates and limit, and a driver that does not fail, the answer is the
   ranking; in every other case it is an error, the metric being looked at first, then the dates, then the limit.
   */
  method GetApplicationRankings(table: seq<Event>, input: RankingInput, driver: Driver)
    returns (result: Result<seq<Ranking>, ServiceError>)
    ensures var metric, filter := TrimSpace(input.metric), ValidateRankingFilter(input);
            && (metric != "" && metric != "installs" ==> result == Err(MetricInvalid))
            && ((metric == "" || metric == "installs") && filter.Err? ==> result == Err(filter.error))
            && (result.Err? && result.error == StoreFailed ==>
                  filter.Ok? && forall full | IsRanking(full, table, filter.value) :: !Smooth(driver, |full|))
            && (result.Ok? ==>
                  && (metric == "" || metric == "installs") && filter.Ok?
                  && IsRanking(result.value, table, filter.value) && Smooth(driver, |result.value|)
                  && MostFirst(result.value))
  {
    var metric := TrimSpace(input.metric);
    if metric == "" {
      metric := METRIC;
    }
    if metric != METRIC {
      return Err(MetricInvalid);
    }
    var filter := ValidateRankingFilter(input);
    if filter.Err? {
      return Err(filter.error);
    }
    var items, errors := ApplicationRankings(table, filter.value, driver);
    if errors != [] {
      return Err(StoreFailed);
    }
    result := Ok(if items == None then [] else items.value);
    forall full | IsRanking(full, table, filter.value) ensures full == result.value {
      RankingIsUnique(full, result.value, InstallCounts(table, filter.value), filter.value.limit);
    }
  }

  /** The statistics of one application, or the first reason for refusing. */
  method GetApplicationStatistics(table: seq<Event>, appID: UUID, input: FilterInput, answers: bool)
    returns (result: Result<Aggregates, ServiceError>)
    ensures result.Ok? <==> appID != NIL && ValidateFilter(input).Ok? && answers
    ensures result.Ok? ==> result.value == Statistics(table, appID, ValidateFilter(input).value)
    ensures result.Ok? ==>
              forall from, to | Names(input.from, from) && Names(input.to, to) ::
                CountsRows(result.value, table, appID, from, to, input.country, input.platform)
    ensures appID == NIL <==> result == Err(NoApp)
    ensures appID != NIL && ValidateFilter(input).Err? ==> result == Err(Refused(ValidateFilter(input).error))
    ensures appID != NIL && ValidateFilter(input).Ok? && !answers ==> result == Err(StoreFailed)
  {
    if appID == NIL {
      return Err(NoApp);
    }
    var filter := ValidateFilter(input);
    if filter.Err? {
      return Err(Refused(filter.error));
    }
    var aggregates := ApplicationStatistics(table, appID, filter.value, answers);
    result := if aggregates.None? then Err(StoreFailed) else Ok(aggregates.value);
    if result.Ok? {
      forall from, to | Names(input.from, from) && Names(input.to, to) {
        StatisticsCountRequested(table, input, appID, from, to);
      }
    }
  }

  lemma InstallsRequested(
    table: seq<Event>, input: RankingInput, app: UUID, from: Option<Date>, to: Option<Date>)
    requires ValidateRankingFilter(input).Ok? && Names(input.from, from) && Names(input.to, to)
    ensures Installs(table, ValidateRankingFilter(input).value, app)
            == CountRequested(table, app, INSTALL, from, to, input.country, "")
  {
    assert AsFilter(ValidateRankingFilter(input).value) == ValidateFilter(DatesOf(input)).value;
    CountsRequested(table, DatesOf(input), app, INSTALL, from, to);
    AggregateIs(MatchingRows(table, app, ValidateFilter(DatesOf(input)).value));
  }

  /**
   What a successful answer lists: the value of each application is the number of its install rows
   whose UTC date lies in the requested inclusive range, in the requested country; more installs come
   first, then smaller identifiers; and an application left out has none, or the list is at its limit
   and every listed one comes before it.
   */
  lemma RankingCountsRequestedDates(
    table: seq<Event>, input: RankingInput, items: seq<Ranking>, from: Option<Date>, to: Option<Date>)
    requires ValidateRankingFilter(input).Ok? && Names(input.from, from) && Names(input.to, to)
    requires IsRanking(items, table, ValidateRankingFilter(input).value)
    ensures NamesLimit(input.limit, ValidateRankingFilter(input).value.limit)
    ensures |items| <= ValidateRankingFilter(input).value.limit <= 100 && MostFirst(items)
    ensures forall i | 0 <= i < |items| ::
              items[i].value == CountRequested(table, items[i].app, INSTALL, from, to, input.country, "") >= 1
    ensures forall app | CountRequested(table, app, INSTALL, from, to, input.country, "") >= 1 && !Lists(items, app) ::
              && |items| == ValidateRankingFilter(input).value.limit
              && forall i | 0 <= i < |items| ::
                   || items[i].value > CountRequested(table, app, INSTALL, from, to, input.country, "")
                   || (items[i].value == CountRequested(table, app, INSTALL, from, to, input.country, "")
                       && items[i].app < app)
  {
    var f := ValidateRankingFilter(input).value;
    forall app ensures InstallCounts(table, f)(app) == CountRequested(table, app, INSTALL, from, to, input.country, "") {
      InstallsRequested(table, input, app, from, to);
    }
    LimitAcceptedIff(input.limit, f.limit);
    forall app | CountRequested(table, app, INSTALL, from, to, input.country, "") >= 1 && !Lists(items, app)
      ensures |items| == f.limit
              && forall i | 0 <= i < |items| ::
                   || items[i].value > CountRequested(table, app, INSTALL, from, to, input.country, "")
                   || (items[i].value == CountRequested(table, app, INSTALL, from, to, input.country, "")
                       && items[i].app < app)
    {
      var count := InstallCounts(table, f)(app);
      assert forall i | 0 <= i < |items| :: Before(items[i], Ranking(app, count));
    }
  }
}
