/**
 The statistics query: conditions and positional arguments grown side by side, and the aggregates
 over the rows they select. The events table is a list of rows; sums are over the integers.
 */
module Queries {
  import opened Common
  import opened Events
  import opened Calendar
  import opened Analytics

  datatype Column = AppIdColumn | TypeColumn | CountryColumn | PlatformColumn | TimeColumn

  datatype Comparison = Equals | AtLeast | Below

  datatype Operand = Literal(text: string) | Placeholder

  /** One conjunct of a WHERE clause. */
  datatype Condition = Condition(column: Column, comparison: Comparison, operand: Operand)

  datatype Argument = IdArgument(id: UUID) | TextArgument(text: string) | TimeArgument(instant: int) | LimitArgument(n: nat)

  /** Whether a row meets one comparison; a value of the wrong type makes the query fail. */
  function Compare(row: Event, column: Column, comparison: Comparison, value: Argument): Option<bool> {
    match (column, comparison, value)
    case (AppIdColumn, Equals, IdArgument(id)) => Some(row.appID == id)
    case (TypeColumn, Equals, TextArgument(text)) => Some(row.eventType == text)
    case (CountryColumn, Equals, TextArgument(text)) => Some(row.country == text)
    case (PlatformColumn, Equals, TextArgument(text)) => Some(row.platform == text)
    case (TimeColumn, AtLeast, TimeArgument(instant)) => Some(instant <= row.timestamp.instant)
    case (TimeColumn, Below, TimeArgument(instant)) => Some(row.timestamp.instant < instant)
    case _ => None
  }

  /**
   A conjunction of conditions whose placeholders take the arguments in order. The query fails if
   there are too few or too many arguments, or one of the wrong type.
   */
  function Where(conditions: seq<Condition>, arguments: seq<Argument>, row: Event): Option<bool> {
    if conditions == [] then if arguments == [] then Some(true) else None
    else
      var init, c := conditions[..|conditions| - 1], conditions[|conditions| - 1];
      if c.operand.Literal? then
        Both(Where(init, arguments, row), Compare(row, c.column, c.comparison, TextArgument(c.operand.text)))
      else if arguments == [] then None
      else
        Both(Where(init, arguments[..|arguments| - 1], row),
             Compare(row, c.column, c.comparison, arguments[|arguments| - 1]))
  }

  function Both(a: Option<bool>, b: Option<bool>): Option<bool> {
    if a.None? || b.None? then None else Some(a.value && b.value)
  }

  lemma WhereLiteral(conditions: seq<Condition>, arguments: seq<Argument>, row: Event, c: Condition)
    requires c.operand.Literal?
    ensures Where(conditions + [c], arguments, row)
            == Both(Where(conditions, arguments, row), Compare(row, c.column, c.comparison, TextArgument(c.operand.text)))
  {
    assert (conditions + [c])[..|conditions|] == conditions;
  }

  lemma WherePlaceholder(conditions: seq<Condition>, arguments: seq<Argument>, row: Event, c: Condition, a: Argument)
    requires c.operand.Placeholder?
    ensures Where(conditions + [c], arguments + [a], row)
            == Both(Where(conditions, arguments, row), Compare(row, c.column, c.comparison, a))
  {
    assert (conditions + [c])[..|conditions|] == conditions;
    assert (arguments + [a])[..|arguments|] == arguments;
  }

  /** The conditions and arguments select exactly these rows, and never fail. */
  ghost predicate Selects(conditions: seq<Condition>, arguments: seq<Argument>, wanted: Event -> bool) {
    forall row :: Where(conditions, arguments, row) == Some(wanted(row))
  }

  function SelectRows(table: seq<Event>, wanted: Event -> bool): seq<Event> {
    if table == [] then []
    else SelectRows(table[..|table| - 1], wanted) + if wanted(table[|table| - 1]) then [table[|table| - 1]] else []
  }

  function RunWhere(table: seq<Event>, conditions: seq<Condition>, arguments: seq<Argument>): Option<seq<Event>> {
    if table == [] then Some([])
    else
      var before := RunWhere(table[..|table| - 1], conditions, arguments);
      var holds := Where(conditions, arguments, table[|table| - 1]);
      if before.None? || holds.None? then None
      else Some(before.value + if holds.value then [table[|table| - 1]] else [])
  }

  lemma {:induction false} RunWhereSelects(
    table: seq<Event>, conditions: seq<Condition>, arguments: seq<Argument>, wanted: Event -> bool)
    requires Selects(conditions, arguments, wanted)
    ensures RunWhere(table, conditions, arguments) == Some(SelectRows(table, wanted))
  {
    if table != [] {
      RunWhereSelects(table[..|table| - 1], conditions, arguments, wanted);
    }
  }

  // ---------- aggregates ----------

  datatype Aggregates = Aggregates(installs: nat, sessions: nat, purchases: nat, revenueCents: int)

  function CountType(rows: seq<Event>, eventType: string): nat {
    if rows == [] then 0
    else CountType(rows[..|rows| - 1], eventType) + if rows[|rows| - 1].eventType == eventType then 1 else 0
  }

  function Revenue(rows: seq<Event>): int {
    if rows == [] then 0
    else Revenue(rows[..|rows| - 1]) + if rows[|rows| - 1].eventType == PURCHASE then rows[|rows| - 1].revenueCents else 0
  }

  function Aggregate(rows: seq<Event>): Aggregates {
    Aggregates(CountType(rows, INSTALL), CountType(rows, SESSION), CountType(rows, PURCHASE), Revenue(rows))
  }

  function Plus(a: Aggregates, b: Aggregates): Aggregates {
    Aggregates(a.installs + b.installs, a.sessions + b.sessions, a.purchases + b.purchases,
               a.revenueCents + b.revenueCents)
  }

  // ---------- the statistics repository ----------

  /** What the filter asks of a row, apart from its application. */
  predicate Matches(f: Filter, row: Event) {
    && InWindow(f, row.timestamp.instant)
    && (f.country != "" ==> row.country == f.country)
    && (f.platform != "" ==> row.platform == f.platform)
  }

  function Wanted(appID: UUID, f: Filter): Event -> bool {
    (row: Event) => row.appID == appID && Matches(f, row)
  }

  function MatchingRows(table: seq<Event>, appID: UUID, f: Filter): seq<Event> {
    SelectRows(table, Wanted(appID, f))
  }

  function Statistics(table: seq<Event>, appID: UUID, f: Filter): Aggregates {
    Aggregate(MatchingRows(table, appID, f))
  }

  /** The conditions that both queries build from the dates and the country of a filter. */
  method BuildCommon(f: Filter, conditions0: seq<Condition>, arguments0: seq<Argument>, ghost wanted: Event -> bool)
    returns (conditions: seq<Condition>, arguments: seq<Argument>)
    requires Selects(conditions0, arguments0, wanted)
    ensures Selects(conditions, arguments,
                    (row: Event) => wanted(row) && InWindow(f, row.timestamp.instant) && (f.country != "" ==> row.country == f.country))
  {
    conditions, arguments := conditions0, arguments0;
    if f.from.Some? {
      var c, a := Condition(TimeColumn, AtLeast, Placeholder), TimeArgument(f.from.value);
      forall row { WherePlaceholder(conditions, arguments, row, c, a); }
      conditions, arguments := conditions + [c], arguments + [a];
    }
    assert Selects(conditions, arguments, (row: Event) => wanted(row) && (f.from.Some? ==> f.from.value <= row.timestamp.instant));
    if f.toExclusive.Some? {
      var c, a := Condition(TimeColumn, Below, Placeholder), TimeArgument(f.toExclusive.value);
      forall row { WherePlaceholder(conditions, arguments, row, c, a); }
      conditions, arguments := conditions + [c], arguments + [a];
    }
    assert Selects(conditions, arguments, (row: Event) => wanted(row) && InWindow(f, row.timestamp.instant));
    if f.country != "" {
      var c, a := Condition(CountryColumn, Equals, Placeholder), TextArgument(f.country);
      forall row { WherePlaceholder(conditions, arguments, row, c, a); }
      conditions, arguments := conditions + [c], arguments + [a];
    }
  }

  /**
   The query the repository builds never fails on its arguments, and its result, when the store
   answers, is the statistics of exactly the application's matching rows.
   */
  method ApplicationStatistics(table: seq<Event>, appID: UUID, f: Filter, answers: bool) returns (result: Option<Aggregates>)
    ensures result == if answers then Some(Statistics(table, appID, f)) else None
  {
    var conditions, arguments := [Condition(AppIdColumn, Equals, Placeholder)], [IdArgument(appID)];
    ghost var ofApp := (row: Event) => row.appID == appID;
    forall row ensures Where(conditions, arguments, row) == Some(ofApp(row)) {
      WherePlaceholder([], [], row, Condition(AppIdColumn, Equals, Placeholder), IdArgument(appID));
      assert [] + [Condition(AppIdColumn, Equals, Placeholder)] == conditions;
      assert [] + [IdArgument(appID)] == arguments;
    }
    conditions, arguments := BuildCommon(f, conditions, arguments, ofApp);
    if f.platform != "" {
      var c, a := Condition(PlatformColumn, Equals, Placeholder), TextArgument(f.platform);
      forall row { WherePlaceholder(conditions, arguments, row, c, a); }
      conditions, arguments := conditions + [c], arguments + [a];
    }
    ghost var wanted := Wanted(appID, f);
    assert Selects(conditions, arguments, wanted);
    RunWhereSelects(table, conditions, arguments, wanted);
    if !answers {
      return None;
    }
    var rows := RunWhere(table, conditions, arguments);
    result := Some(Aggregate(rows.value));
  }

  // ---------- laws of the statistics ----------

  lemma CountSnoc(rows: seq<Event>, row: Event, eventType: string)
    ensures CountType(rows + [row], eventType) == CountType(rows, eventType) + if row.eventType == eventType then 1 else 0
    ensures rows + [] == rows
  {
    assert (rows + [row])[..|rows|] == rows;
  }

  lemma RevenueSnoc(rows: seq<Event>, row: Event)
    ensures Revenue(rows + [row]) == Revenue(rows) + if row.eventType == PURCHASE then row.revenueCents else 0
    ensures rows + [] == rows
  {
    assert (rows + [row])[..|rows|] == rows;
  }

  /** Each row that p selects is selected by exactly one of q and r. */
  ghost predicate Splits(p: Event -> bool, q: Event -> bool, r: Event -> bool) {
    forall row :: (p(row) <==> q(row) || r(row)) && !(q(row) && r(row))
  }

  lemma {:induction false} SplitCount(
    table: seq<Event>, p: Event -> bool, q: Event -> bool, r: Event -> bool, eventType: string)
    requires Splits(p, q, r)
    ensures CountType(SelectRows(table, p), eventType)
            == CountType(SelectRows(table, q), eventType) + CountType(SelectRows(table, r), eventType)
  {
    if table != [] {
      var init, row := table[..|table| - 1], table[|table| - 1];
      SplitCount(init, p, q, r, eventType);
      CountSnoc(SelectRows(init, p), row, eventType);
      CountSnoc(SelectRows(init, q), row, eventType);
      CountSnoc(SelectRows(init, r), row, eventType);
    }
  }

  lemma {:induction false} SplitRevenue(table: seq<Event>, p: Event -> bool, q: Event -> bool, r: Event -> bool)
    requires Splits(p, q, r)
    ensures Revenue(SelectRows(table, p)) == Revenue(SelectRows(table, q)) + Revenue(SelectRows(table, r))
  {
    if table != [] {
      var init, row := table[..|table| - 1], table[|table| - 1];
      SplitRevenue(init, p, q, r);
      RevenueSnoc(SelectRows(init, p), row);
      RevenueSnoc(SelectRows(init, q), row);
      RevenueSnoc(SelectRows(init, r), row);
    }
  }

  lemma SplitStatistics(table: seq<Event>, appID: UUID, w: Filter, f: Filter, s: Filter)
    requires Splits(Wanted(appID, w), Wanted(appID, f), Wanted(appID, s))
    ensures Statistics(table, appID, w) == Plus(Statistics(table, appID, f), Statistics(table, appID, s))
  {
    var p, q, r := Wanted(appID, w), Wanted(appID, f), Wanted(appID, s);
    forall eventType {
      SplitCount(table, p, q, r, eventType);
    }
    SplitRevenue(table, p, q, r);
    AggregatesAdd(SelectRows(table, p), SelectRows(table, q), SelectRows(table, r));
  }

  lemma AggregatesAdd(a: seq<Event>, b: seq<Event>, c: seq<Event>)
    requires forall eventType :: CountType(a, eventType) == CountType(b, eventType) + CountType(c, eventType)
    requires Revenue(a) == Revenue(b) + Revenue(c)
    ensures Aggregate(a) == Plus(Aggregate(b), Aggregate(c))
  {
  }

  /** An instant in the whole range is in exactly one of the two parts. */
  lemma WindowSplits(
    whole: FilterInput, first: FilterInput, second: FilterInput,
    from: Option<Date>, middle: Date, to: Option<Date>, instant: int)
    requires Names(whole.from, from) && Names(whole.to, to)
    requires Names(first.from, from) && Names(first.to, Some(middle))
    requires Names(second.from, Some(DayAfter(middle))) && Names(second.to, to)
    requires ValidateFilter(whole).Ok? && ValidateFilter(first).Ok? && ValidateFilter(second).Ok?
    ensures var w, f, s := ValidateFilter(whole).value, ValidateFilter(first).value, ValidateFilter(second).value;
            && (InWindow(w, instant) <==> InWindow(f, instant) || InWindow(s, instant))
            && !(InWindow(f, instant) && InWindow(s, instant))
  {
    WindowIsExact(whole, from, to, instant);
    WindowIsExact(first, from, Some(middle), instant);
    WindowIsExact(second, Some(DayAfter(middle)), to, instant);
    FilterOrder(first, from, middle);
    FilterOrderFrom(second, DayAfter(middle), to);
    RangeSplits(DateOf(instant), from, middle, to, instant);
  }

  lemma FiltersSplit(appID: UUID, w: Filter, f: Filter, s: Filter)
    requires w.country == f.country == s.country && w.platform == f.platform == s.platform
    requires forall instant ::
               && (InWindow(w, instant) <==> InWindow(f, instant) || InWindow(s, instant))
               && !(InWindow(f, instant) && InWindow(s, instant))
    ensures Splits(Wanted(appID, w), Wanted(appID, f), Wanted(appID, s))
  {
  }

  /** Statistics over consecutive date ranges add up, across month ends and leap days, for every table. */
  lemma WindowsAddUp(
    table: seq<Event>, appID: UUID, whole: FilterInput, first: FilterInput, second: FilterInput,
    from: Option<Date>, middle: Date, to: Option<Date>)
    requires Names(whole.from, from) && Names(whole.to, to)
    requires Names(first.from, from) && Names(first.to, Some(middle))
    requires Names(second.from, Some(DayAfter(middle))) && Names(second.to, to)
    requires whole.country == first.country == second.country && whole.platform == first.platform == second.platform
    requires ValidateFilter(whole).Ok? && ValidateFilter(first).Ok? && ValidateFilter(second).Ok?
    ensures Statistics(table, appID, ValidateFilter(whole).value)
            == Plus(Statistics(table, appID, ValidateFilter(first).value),
                    Statistics(table, appID, ValidateFilter(second).value))
  {
    var w, f, s := ValidateFilter(whole).value, ValidateFilter(first).value, ValidateFilter(second).value;
    FilterKeepsTexts(whole, first);
    FilterKeepsTexts(whole, second);
    forall instant {
      WindowSplits(whole, first, second, from, middle, to, instant);
    }
    FiltersSplit(appID, w, f, s);
    SplitStatistics(table, appID, w, f, s);
  }

  lemma FilterKeepsTexts(a: FilterInput, b: FilterInput)
    requires ValidateFilter(a).Ok? && ValidateFilter(b).Ok? && a.country == b.country && a.platform == b.platform
    ensures ValidateFilter(a).value.country == ValidateFilter(b).value.country
    ensures ValidateFilter(a).value.platform == ValidateFilter(b).value.platform
  {
  }

  /** An accepted filter has its dates in order. */
  lemma FilterOrder(input: FilterInput, from: Option<Date>, to: Date)
    requires Names(input.from, from) && Names(input.to, Some(to)) && ValidateFilter(input).Ok?
    ensures from.Some? ==> NotAfter(from.value, to)
  {
    ParseDateNames(input.from, FromInvalid, from);
    ParseDateNames(input.to, ToInvalid, Some(to));
    if from.Some? {
      MidnightOrder(from.value, to);
    }
  }

  lemma FilterOrderFrom(input: FilterInput, from: Date, to: Option<Date>)
    requires Names(input.from, Some(from)) && Names(input.to, to) && ValidateFilter(input).Ok?
    ensures to.Some? ==> NotAfter(from, to.value)
  {
    if to.Some? {
      FilterOrder(input, Some(from), to.value);
    }
  }

  lemma RangeSplits(d: Date, from: Option<Date>, middle: Date, to: Option<Date>, instant: int)
    requires d == DateOf(instant) && IsDate(middle)
    requires from.Some? ==> IsDate(from.value) && NotAfter(from.value, middle)
    requires to.Some? ==> IsDate(to.value) && NotAfter(DayAfter(middle), to.value)
    ensures InRange(d, from, to) <==> InRange(d, from, Some(middle)) || InRange(d, Some(DayAfter(middle)), to)
    ensures !(InRange(d, from, Some(middle)) && InRange(d, Some(DayAfter(middle)), to))
  {
    DateOfDayNumber(instant / TICKS_PER_DAY);
    DayAfterIsNext(middle);
    OrderOfNumbers(d, middle);
    OrderOfNumbers(DayAfter(middle), d);
    if from.Some? {
      OrderOfNumbers(from.value, d);
      OrderOfNumbers(from.value, middle);
    }
    if to.Some? {
      OrderOfNumbers(d, to.value);
      OrderOfNumbers(DayAfter(middle), to.value);
    }
  }

  /** Over valid rows, the three counts partition the rows selected, and revenue is not negative. */
  lemma {:induction false} ValidRowsAddUp(rows: seq<Event>)
    requires forall i | 0 <= i < |rows| :: WellFormed(rows[i])
    ensures var a := Aggregate(rows);
            a.installs + a.sessions + a.purchases == |rows| && 0 <= a.revenueCents
  {
    if rows != [] {
      ValidRowsAddUp(rows[..|rows| - 1]);
    }
  }

  lemma {:induction false} SelectedRowsAreRows(table: seq<Event>, wanted: Event -> bool)
    ensures forall i | 0 <= i < |SelectRows(table, wanted)| ::
              SelectRows(table, wanted)[i] in table && wanted(SelectRows(table, wanted)[i])
  {
    if table != [] {
      SelectedRowsAreRows(table[..|table| - 1], wanted);
    }
  }

  /** Over a table of valid rows, every statistics result accounts for each matching row once. */
  lemma StatisticsCountEveryMatch(table: seq<Event>, appID: UUID, f: Filter)
    requires forall i | 0 <= i < |table| :: WellFormed(table[i])
    ensures var a := Statistics(table, appID, f);
            && a.installs + a.sessions + a.purchases == |MatchingRows(table, appID, f)|
            && 0 <= a.revenueCents
  {
    var wanted := Wanted(appID, f);
    SelectedRowsAreRows(table, wanted);
    ValidRowsAddUp(SelectRows(table, wanted));
  }
}
