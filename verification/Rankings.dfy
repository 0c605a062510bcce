/**
 The rankings query: install counts per application, largest first, cut at a limit.
 The database groups, orders and cuts; the repository builds the query and reads the answer row by row.
 */
module Rankings {
  import opened Common
  import opened Events
  import opened Analytics
  import opened Queries

  datatype Ranking = Ranking(app: UUID, value: nat)

  datatype RankingFilter = RankingFilter(from: Option<int>, toExclusive: Option<int>, country: string, limit: nat)

  /** More installs first; among equals the smaller identifier first. */
  predicate Before(a: Ranking, b: Ranking) {
    a.value > b.value || (a.value == b.value && a.app < b.app)
  }

  // ---------- what a ranking is ----------

  /** The same dates and country, for a statistics query of any platform. */
  function AsFilter(f: RankingFilter): Filter {
    Filter(f.from, f.toExclusive, f.country, "")
  }

  /** The installs that the statistics query reports for an application. */
  function Installs(table: seq<Event>, f: RankingFilter, app: UUID): nat {
    Statistics(table, app, AsFilter(f)).installs
  }

  function InstallCounts(table: seq<Event>, f: RankingFilter): UUID -> nat {
    (app: UUID) => Installs(table, f, app)
  }

  ghost predicate Lists(result: seq<Ranking>, app: UUID) {
    exists i | 0 <= i < |result| :: result[i].app == app
  }

  ghost predicate Ordered(result: seq<Ranking>) {
    forall i, j | 0 <= i < j < |result| :: Before(result[i], result[j]) && result[i].app != result[j].app
  }

  /** The list gives applications with an install their count, and no omitted one comes before a listed one. */
  ghost predicate IsTop(result: seq<Ranking>, count: UUID -> nat, limit: nat) {
    && |result| <= limit
    && Ordered(result)
    && (forall i | 0 <= i < |result| :: result[i].value == count(result[i].app) >= 1)
    && (forall app | count(app) >= 1 && !Lists(result, app) ::
          |result| == limit && forall i | 0 <= i < |result| :: Before(result[i], Ranking(app, count(app))))
  }

  ghost predicate IsRanking(result: seq<Ranking>, table: seq<Event>, f: RankingFilter) {
    IsTop(result, InstallCounts(table, f), f.limit)
  }

  /** No application outside the places before i comes before the one at place i. */
  lemma NextIsBest(a: seq<Ranking>, count: UUID -> nat, limit: nat, i: nat, app: UUID)
    requires IsTop(a, count, limit) && i < |a| && count(app) >= 1
    requires forall j | 0 <= j < i :: a[j].app != app
    ensures a[i] == Ranking(app, count(app)) || Before(a[i], Ranking(app, count(app)))
  {
    if Lists(a, app) {
      var j :| 0 <= j < |a| && a[j].app == app;
      assert a[j] == Ranking(app, count(app)) && i <= j;
    }
  }

  /** Two rankings that agree up to a place agree at that place. */
  lemma AgreeAt(a: seq<Ranking>, b: seq<Ranking>, count: UUID -> nat, limit: nat, i: nat)
    requires IsTop(a, count, limit) && IsTop(b, count, limit) && i < |a| && i <= |b|
    requires forall j | 0 <= j < i :: a[j] == b[j]
    ensures i < |b| && a[i] == b[i]
  {
    assert i < |b| by {
      if Lists(b, a[i].app) {
        var j :| 0 <= j < |b| && b[j].app == a[i].app;
        assert i <= j;
      }
    }
    NextIsBest(b, count, limit, i, a[i].app);
    NextIsBest(a, count, limit, i, b[i].app);
  }

  lemma {:induction false} SamePrefix(a: seq<Ranking>, b: seq<Ranking>, count: UUID -> nat, limit: nat, i: nat)
    requires IsTop(a, count, limit) && IsTop(b, count, limit) && i <= |a|
    ensures i <= |b| && forall j | 0 <= j < i :: a[j] == b[j]
  {
    if i > 0 {
      SamePrefix(a, b, count, limit, i - 1);
      AgreeAt(a, b, count, limit, i - 1);
    }
  }

  /** The counts and the limit leave only one ranking. */
  lemma RankingIsUnique(a: seq<Ranking>, b: seq<Ranking>, count: UUID -> nat, limit: nat)
    requires IsTop(a, count, limit) && IsTop(b, count, limit)
    ensures a == b
  {
    SamePrefix(a, b, count, limit, |a|);
    SamePrefix(b, a, count, limit, |b|);
  }

  lemma ListedInPrefix(a: seq<Ranking>, n: nat, j: nat)
    requires n <= |a| && j < |a|
    ensures j < n ==> Lists(a[..n], a[j].app)
  {
    if j < n {
      assert a[..n][j] == a[j];
    }
  }

  function Shorter(n: nat, limit: nat): nat {
    if n < limit then n else limit
  }

  /** Whatever the ranking for a larger limit is, the one for a smaller limit is its prefix. */
  lemma SmallerLimitIsPrefix(a: seq<Ranking>, b: seq<Ranking>, count: UUID -> nat, large: nat, small: nat)
    requires IsTop(a, count, large) && IsTop(b, count, small) && small <= large
    ensures b == a[..Shorter(|a|, small)]
  {
    var c := a[..Shorter(|a|, small)];
    forall app | count(app) >= 1 && !Lists(c, app)
      ensures |c| == small && forall i | 0 <= i < |c| :: Before(c[i], Ranking(app, count(app)))
    {
      if Lists(a, app) {
        var j :| 0 <= j < |a| && a[j].app == app;
        ListedInPrefix(a, |c|, j);
        assert a[j] == Ranking(app, count(app));
      }
    }
    RankingIsUnique(b, c, count, small);
  }

  // ---------- what the database computes ----------

  function CountApp(rows: seq<Event>, app: UUID): nat {
    if rows == [] then 0
    else CountApp(rows[..|rows| - 1], app) + if rows[|rows| - 1].appID == app then 1 else 0
  }

  /** One more row for an application. */
  function Bump(groups: seq<Ranking>, app: UUID): seq<Ranking> {
    if groups == [] then [Ranking(app, 1)]
    else if groups[0].app == app then [Ranking(app, groups[0].value + 1)] + groups[1..]
    else [groups[0]] + Bump(groups[1..], app)
  }

  /** GROUP BY app_id, with count() for each group. */
  function Groups(rows: seq<Event>): seq<Ranking> {
    if rows == [] then [] else Bump(Groups(rows[..|rows| - 1]), rows[|rows| - 1].appID)
  }

  function Insert(g: Ranking, sorted: seq<Ranking>): seq<Ranking> {
    if sorted == [] || Before(g, sorted[0]) then [g] + sorted else [sorted[0]] + Insert(g, sorted[1..])
  }

  /** ORDER BY value DESC, app_id ASC. */
  function Sort(groups: seq<Ranking>): seq<Ranking> {
    if groups == [] then [] else Insert(groups[0], Sort(groups[1..]))
  }

  /** The answer to the query; it fails if the arguments do not fit the placeholders. */
  function RunRankings(table: seq<Event>, conditions: seq<Condition>, arguments: seq<Argument>): Option<seq<Ranking>> {
    if arguments == [] || !arguments[|arguments| - 1].LimitArgument? then None
    else
      var rows := RunWhere(table, conditions, arguments[..|arguments| - 1]);
      if rows.None? then None
      else
        var sorted := Sort(Groups(rows.value));
        Some(sorted[..Shorter(|sorted|, arguments[|arguments| - 1].n)])
  }

  ghost predicate Unlisted(groups: seq<Ranking>, app: UUID) {
    forall i | 0 <= i < |groups| :: groups[i].app != app
  }

  ghost predicate Distinct(groups: seq<Ranking>) {
    forall i, j | 0 <= i < j < |groups| :: groups[i].app != groups[j].app
  }

  /** The value an application has in a list, 0 when it is not there. */
  function ValueOf(groups: seq<Ranking>, app: UUID): nat {
    if groups == [] then 0 else if groups[0].app == app then groups[0].value else ValueOf(groups[1..], app)
  }

  lemma {:induction false} ValueOfListed(groups: seq<Ranking>, i: nat)
    requires Distinct(groups) && i < |groups|
    ensures ValueOf(groups, groups[i].app) == groups[i].value
  {
    if i > 0 {
      assert groups[0].app != groups[i].app;
      ValueOfListed(groups[1..], i - 1);
    }
  }

  lemma {:induction false} ValueOfUnlisted(groups: seq<Ranking>, app: UUID)
    ensures ValueOf(groups, app) >= 1 ==> Lists(groups, app)
  {
    if groups != [] && groups[0].app != app && ValueOf(groups, app) >= 1 {
      ValueOfUnlisted(groups[1..], app);
      var i :| 0 <= i < |groups[1..]| && groups[1..][i].app == app;
      assert groups[i + 1].app == app;
    }
  }

  ghost predicate Positive(groups: seq<Ranking>) {
    forall i | 0 <= i < |groups| :: groups[i].value >= 1
  }

  lemma {:induction false} BumpCounts(groups: seq<Ranking>, app: UUID)
    requires Distinct(groups) && Positive(groups)
    ensures Distinct(Bump(groups, app)) && Positive(Bump(groups, app))
    ensures forall other :: ValueOf(Bump(groups, app), other) == ValueOf(groups, other) + if other == app then 1 else 0
    ensures forall i | 0 <= i < |Bump(groups, app)| :: Bump(groups, app)[i].app == app || Lists(groups, Bump(groups, app)[i].app)
  {
    if groups != [] && groups[0].app != app {
      var rest := groups[1..];
      BumpCounts(rest, app);
      forall i | 0 <= i < |Bump(rest, app)|
        ensures Bump(rest, app)[i].app != groups[0].app
        ensures Bump(rest, app)[i].app == app || Lists(groups, Bump(rest, app)[i].app)
      {
        if Bump(rest, app)[i].app != app {
          var j :| 0 <= j < |rest| && rest[j].app == Bump(rest, app)[i].app;
          assert groups[j + 1].app == Bump(rest, app)[i].app;
        }
      }
      assert Lists(groups, groups[0].app);
    }
  }

  lemma {:induction false} GroupsCount(rows: seq<Event>)
    ensures Distinct(Groups(rows)) && Positive(Groups(rows))
    ensures forall app :: ValueOf(Groups(rows), app) == CountApp(rows, app)
  {
    if rows != [] {
      GroupsCount(rows[..|rows| - 1]);
      BumpCounts(Groups(rows[..|rows| - 1]), rows[|rows| - 1].appID);
    }
  }

  lemma {:induction false} InsertOrdered(g: Ranking, sorted: seq<Ranking>)
    requires Ordered(sorted) && Unlisted(sorted, g.app)
    ensures Ordered(Insert(g, sorted))
    ensures forall i | 0 <= i < |Insert(g, sorted)| :: Insert(g, sorted)[i] == g || Insert(g, sorted)[i] in sorted
    ensures forall app :: ValueOf(Insert(g, sorted), app) == if app == g.app then g.value else ValueOf(sorted, app)
  {
    if sorted != [] && !Before(g, sorted[0]) {
      InsertOrdered(g, sorted[1..]);
    }
  }

  lemma {:induction false} SortOrders(groups: seq<Ranking>)
    requires Distinct(groups)
    ensures Ordered(Sort(groups))
    ensures forall i | 0 <= i < |Sort(groups)| :: Sort(groups)[i] in groups
    ensures forall app :: ValueOf(Sort(groups), app) == ValueOf(groups, app)
  {
    if groups != [] {
      SortOrders(groups[1..]);
      assert Unlisted(Sort(groups[1..]), groups[0].app);
      InsertOrdered(groups[0], Sort(groups[1..]));
    }
  }

  /** Grouping, ordering and cutting the selected rows gives the ranking of their counts. */
  lemma CutIsTop(rows: seq<Event>, count: UUID -> nat, limit: nat)
    requires forall app :: count(app) == CountApp(rows, app)
    ensures var sorted := Sort(Groups(rows)); IsTop(sorted[..Shorter(|sorted|, limit)], count, limit)
  {
    GroupsCount(rows);
    SortOrders(Groups(rows));
    var sorted := Sort(Groups(rows));
    forall i | 0 <= i < |sorted| ensures sorted[i].value == count(sorted[i].app) >= 1 {
      ValueOfListed(sorted, i);
    }
    var result := sorted[..Shorter(|sorted|, limit)];
    forall app | count(app) >= 1 && !Lists(result, app)
      ensures |result| == limit && forall i | 0 <= i < |result| :: Before(result[i], Ranking(app, count(app)))
    {
      ValueOfUnlisted(sorted, app);
      var j :| 0 <= j < |sorted| && sorted[j].app == app;
      ListedInPrefix(sorted, |result|, j);
      assert sorted[j] == Ranking(app, count(app));
    }
  }

  /** The rows the rankings query selects. */
  function WantedInstall(f: RankingFilter): Event -> bool {
    (row: Event) =>
      row.eventType == INSTALL && InWindow(AsFilter(f), row.timestamp.instant) && (f.country != "" ==> row.country == f.country)
  }

  /** Counting an application's rows here is counting its installs there: the two queries agree. */
  lemma {:induction false} QueriesAgree(table: seq<Event>, f: RankingFilter, app: UUID)
    ensures CountApp(SelectRows(table, WantedInstall(f)), app) == Installs(table, f, app)
  {
    if table != [] {
      var init, row := table[..|table| - 1], table[|table| - 1];
      QueriesAgree(init, f, app);
      CountAppSnoc(SelectRows(init, WantedInstall(f)), row, app);
      CountSnoc(MatchingRows(init, app, AsFilter(f)), row, INSTALL);
    }
  }

  lemma CountAppSnoc(rows: seq<Event>, row: Event, app: UUID)
    ensures CountApp(rows + [row], app) == CountApp(rows, app) + if row.appID == app then 1 else 0
    ensures rows + [] == rows
  {
    assert (rows + [row])[..|rows|] == rows;
  }

  /** The applications with at least one row the query selects. */
  function InstallingApps(table: seq<Event>, f: RankingFilter): set<UUID> {
    set row | row in SelectRows(table, WantedInstall(f)) :: row.appID
  }

  lemma {:induction false} CountedApps(rows: seq<Event>, app: UUID)
    ensures CountApp(rows, app) >= 1 <==> exists row | row in rows :: row.appID == app
  {
    if rows != [] {
      CountedApps(rows[..|rows| - 1], app);
    }
  }

  lemma {:induction false} DistinctApps(result: seq<Ranking>)
    requires Distinct(result)
    ensures |set r | r in result :: r.app| == |result|
  {
    if result != [] {
      var init, last := result[..|result| - 1], result[|result| - 1];
      DistinctApps(init);
      assert (set r | r in result :: r.app) == (set r | r in init :: r.app) + {last.app};
    }
  }

  /** A ranking is as long as the limit, or as the number of applications with an install if that is less. */
  lemma RankingLength(result: seq<Ranking>, table: seq<Event>, f: RankingFilter)
    requires IsRanking(result, table, f)
    ensures |result| == Shorter(|InstallingApps(table, f)|, f.limit)
  {
    var listed, all := set r | r in result :: r.app, InstallingApps(table, f);
    DistinctApps(result);
    forall app ensures app in all <==> Installs(table, f, app) >= 1 {
      CountedApps(SelectRows(table, WantedInstall(f)), app);
      QueriesAgree(table, f, app);
    }
    assert listed <= all;
    Subset(listed, all);
    if |result| < f.limit {
      forall app | app in all ensures app in listed {
        assert InstallCounts(table, f)(app) >= 1;
      }
      assert listed == all;
    }
  }

  lemma Subset(a: set<UUID>, b: set<UUID>)
    requires a <= b
    ensures |a| <= |b|
  {
    assert b == a + (b - a);
  }

  // ---------- the repository ----------

  datatype RowError = QueryFailed | ScanFailed | CloseFailed | ReadFailed

  /** How the driver behaves: the query may fail, a row may not scan, the rows may break off, Close may fail. */
  datatype Driver = Driver(refuses: bool, unscannable: Option<nat>, breaksAfter: Option<nat>, closeFails: bool)

  /** Nothing goes wrong while an answer of n rows is read. */
  predicate Smooth(d: Driver, n: nat) {
    && !d.refuses && !d.closeFails && d.breaksAfter.None?
    && (d.unscannable.Some? ==> n <= d.unscannable.value)
  }

  /** The built query gets an answer, and it is the one ranking there is. */
  lemma AnswerIsRanking(table: seq<Event>, f: RankingFilter, conditions: seq<Condition>, arguments: seq<Argument>)
    returns (full: seq<Ranking>)
    requires Selects(conditions, arguments, WantedInstall(f))
    ensures RunRankings(table, conditions, arguments + [LimitArgument(f.limit)]) == Some(full)
    ensures forall other :: IsRanking(other, table, f) <==> other == full
  {
    RunWhereSelects(table, conditions, arguments, WantedInstall(f));
    assert (arguments + [LimitArgument(f.limit)])[..|arguments|] == arguments;
    var count := InstallCounts(table, f);
    forall app {
      QueriesAgree(table, f, app);
    }
    CutIsTop(SelectRows(table, WantedInstall(f)), count, f.limit);
    full := RunRankings(table, conditions, arguments + [LimitArgument(f.limit)]).value;
    forall other | IsRanking(other, table, f) ensures other == full {
      RankingIsUnique(other, full, count, f.limit);
    }
  }

  /** How many of n rows arrive before they break off. */
  function Delivered(d: Driver, n: nat): nat {
    if d.breaksAfter.Some? then Shorter(d.breaksAfter.value, n) else n
  }

  /** Of the rows that arrive there is one that cannot be scanned. */
  predicate Unscanned(d: Driver, n: nat) {
    !d.refuses && d.unscannable.Some? && d.unscannable.value < Delivered(d, n)
  }

  /**
   The query is well formed for every filter, and without an error the answer is exactly the ranking.
   Any failure of the driver, even after the last row, is reported: a partial list never passes for the whole.
   */
  method ApplicationRankings(table: seq<Event>, f: RankingFilter, driver: Driver)
    returns (result: Option<seq<Ranking>>, errors: seq<RowError>)
    ensures errors == [] ==> result.Some? && IsRanking(result.value, table, f)
    ensures errors == [] ==> exists full :: IsRanking(full, table, f) && Smooth(driver, |full|)
    ensures errors != [] ==> forall full | IsRanking(full, table, f) :: !Smooth(driver, |full|)
    ensures QueryFailed in errors <==> driver.refuses
    ensures CloseFailed in errors <==> !driver.refuses && driver.closeFails
    ensures ReadFailed in errors <==> !driver.refuses && driver.breaksAfter.Some?
    ensures forall full | IsRanking(full, table, f) :: ScanFailed in errors <==> Unscanned(driver, |full|)
    ensures result.None? <==> QueryFailed in errors || ScanFailed in errors
    ensures result.Some? ==> forall full | IsRanking(full, table, f) :: |result.value| == Delivered(driver, |full|)
    ensures result.Some? ==>
              exists full :: IsRanking(full, table, f) && |result.value| <= |full| && result.value == full[..|result.value|]
  {
    var conditions, arguments := [Condition(TypeColumn, Equals, Literal(INSTALL))], [];
    ghost var isInstall := (row: Event) => row.eventType == INSTALL;
    SelectsInstalls(conditions);
    conditions, arguments := BuildCommon(AsFilter(f), conditions, arguments, isInstall);
    assert Selects(conditions, arguments, WantedInstall(f));
    ghost var expected := AnswerIsRanking(table, f, conditions, arguments);
    arguments := arguments + [LimitArgument(f.limit)];
    if driver.refuses {
      return None, [QueryFailed];
    }
    var full := RunRankings(table, conditions, arguments).value;
    var items, row := [], 0;
    errors := [];
    while row < |full| && (driver.breaksAfter.Some? ==> row < driver.breaksAfter.value)
      invariant row <= |full| && items == full[..row] && errors == []
      invariant row <= Delivered(driver, |full|)
      invariant driver.unscannable.Some? ==> row <= driver.unscannable.value
    {
      if driver.unscannable == Some(row) {
        errors := [ScanFailed];
        break;
      }
      items := items + [full[row]];
      row := row + 1;
    }
    result := if errors == [] then Some(items) else None;
    if driver.closeFails {
      errors := errors + [CloseFailed];
    }
    if driver.breaksAfter.Some? {
      errors := errors + [ReadFailed];
    }
  }

  lemma SelectsInstalls(conditions: seq<Condition>)
    requires conditions == [Condition(TypeColumn, Equals, Literal(INSTALL))]
    ensures Selects(conditions, [], (row: Event) => row.eventType == INSTALL)
  {
    forall row: Event ensures Where(conditions, [], row) == Some(row.eventType == INSTALL) {
      WhereLiteral([], [], row, conditions[0]);
      assert [] + [conditions[0]] == conditions;
    }
  }
}
