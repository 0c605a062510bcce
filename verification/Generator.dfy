/**
 The benchmark's events: type and application cycle with the index, so that residues determine
 every count the benchmark publishes. Random draws and identifiers are parameters.
 */
module Generators {
  import opened Common
  import opened Events
  import opened Calendar
  import opened Analytics
  import opened Queries

  const APPLICATIONS: nat := 100
  const TYPES: seq<string> := [INSTALL, SESSION, PURCHASE]
  const COUNTRIES: seq<string> := ["US", "GB", "DE", "FR", "BR", "IN", "JP", "RS"]
  const PLATFORMS: seq<string> := [ANDROID, IOS]
  const TICKS_PER_HOUR: int := 3_600_000_000_000

  /** 2026-08-19 at noon, UTC. */
  function BaseTime(): int {
    Midnight(Date(2026, 8, 19)) + 12 * TICKS_PER_HOUR
  }

  /** The k-th random draw below a bound. */
  type Draws = (nat, nat) -> nat

  ghost predicate Bounded(draw: Draws) {
    forall k, bound: nat | bound > 0 :: draw(k, bound) < bound
  }

  ghost predicate AllDifferent(ids: seq<UUID>) {
    forall i, j | 0 <= i < j < |ids| :: ids[i] != ids[j]
  }

  /** What the event at an index is, whatever the draws. */
  ghost predicate IsGenerated(e: Event, index: nat, appIDs: seq<UUID>, eventID: nat -> UUID)
    requires |appIDs| == APPLICATIONS
  {
    && e.eventID == eventID(index)
    && e.appID == appIDs[index % 100]
    && e.eventType == TYPES[index % 3]
    && e.country in COUNTRIES && e.platform in PLATFORMS
    && (if e.eventType == PURCHASE then 100 <= e.revenueCents <= 10_000 else e.revenueCents == 0)
    && e.timestamp == Timestamp(BaseTime() - (index % 720) * TICKS_PER_HOUR, 0)
  }

  /**
   Two draws are made for every event and a third for a purchase, which is every third event: so the
   event at an index uses the draws from this one on.
   */
  function FirstDraw(index: nat): nat {
    2 * index + index / 3
  }

  /** The event's revenue, country and platform are those drawn, in this order. */
  ghost predicate IsDrawn(e: Event, index: nat, draw: Draws)
    requires Bounded(draw)
  {
    var k := FirstDraw(index) + if index % 3 == 2 then 1 else 0;
    && (index % 3 == 2 ==> e.revenueCents == 100 + draw(k - 1, 9901))
    && e.country == COUNTRIES[draw(k, 8)] && e.platform == PLATFORMS[draw(k + 1, 2)]
  }

  ghost predicate AreDrawn(events: seq<Event>, draw: Draws)
    requires Bounded(draw)
  {
    forall i | 0 <= i < |events| :: IsDrawn(events[i], i, draw)
  }

  ghost predicate AreGenerated(events: seq<Event>, appIDs: seq<UUID>, eventID: nat -> UUID)
    requires |appIDs| == APPLICATIONS
  {
    forall i | 0 <= i < |events| :: IsGenerated(events[i], i, appIDs, eventID)
  }

  method GenerateEvents(count: nat, appIDs: seq<UUID>, eventID: nat -> UUID, draw: Draws)
    returns (events: seq<Event>, analysed: UUID)
    requires |appIDs| == APPLICATIONS && Bounded(draw)
    ensures |events| == count && AreGenerated(events, appIDs, eventID) && AreDrawn(events, draw)
    ensures analysed == appIDs[0]
  {
    events := [];
    var draws := 0;
    for index := 0 to count
      invariant |events| == index && AreGenerated(events, appIDs, eventID) && AreDrawn(events, draw)
      invariant draws == FirstDraw(index)
    {
      var eventType := TYPES[index % |TYPES|];
      var revenueCents := 0;
      if eventType == PURCHASE {
        revenueCents := 100 + draw(draws, 9901);
        draws := draws + 1;
      }
      var country := COUNTRIES[draw(draws, |COUNTRIES|)];
      var platform := PLATFORMS[draw(draws + 1, |PLATFORMS|)];
      draws := draws + 2;
      var timestamp := Timestamp(BaseTime() - (index % 720) * TICKS_PER_HOUR, 0);
      var e := Event(eventID(index), appIDs[index % |appIDs|], eventType, country, platform, revenueCents, timestamp);
      assert IsGenerated(e, index, appIDs, eventID) && IsDrawn(e, index, draw);
      events := events + [e];
    }
    analysed := appIDs[0];
  }

  /** Given identifiers that are not nil, the worker's own check would accept every generated event. */
  lemma GeneratedAreValid(e: Event, index: nat, appIDs: seq<UUID>, eventID: nat -> UUID)
    requires |appIDs| == APPLICATIONS && IsGenerated(e, index, appIDs, eventID)
    requires eventID(index) != NIL && NIL !in appIDs
    ensures Validate(e) == None
  {
    ValidateIffWellFormed(e);
    assert !Blank(e.country) by {
      assert !IsSpace(e.country[0]);
    }
    assert 0 < e.timestamp.instant by {
      YearsAddUp(1, 2026);
      MonthsAddUp(2026, 1, 8);
    }
  }

  // ---------- residues ----------

  /** How many indexes below n leave the remainder r when divided by 300. */
  function CountResidue(n: nat, r: nat): nat {
    if n == 0 then 0 else CountResidue(n - 1, r) + if (n - 1) % 300 == r then 1 else 0
  }

  lemma {:induction false} ResidueCount(n: nat, r: nat)
    requires r < 300
    ensures CountResidue(n, r) == (n + 299 - r) / 300
  {
    if n > 0 {
      ResidueCount(n - 1, r);
    }
  }

  /** The one residue modulo 300 that meets both cycles. */
  function Residue(app: nat, kind: nat): nat {
    app + 100 * ((kind + 2 * app) % 3)
  }

  lemma Remainders(q: nat, r: nat)
    ensures (300 * q + r) % 100 == r % 100 && (300 * q + r) % 3 == r % 3
  {
  }

  lemma HundredsDigit(h: nat, app: nat, kind: nat)
    requires h < 3 && kind < 3
    ensures (100 * h + app) % 3 == kind <==> h == (kind + 2 * app) % 3
  {
    var q, m := app / 3, app % 3;
    DropThrees(33 * h + q, h + m);
    DropThrees(2 * q, kind + 2 * m);
    assert 100 * h + app == 3 * (33 * h + q) + (h + m) && kind + 2 * app == 3 * (2 * q) + (kind + 2 * m);
  }

  lemma DropThrees(k: nat, m: nat)
    ensures (3 * k + m) % 3 == m % 3
  {
  }

  lemma ResidueMeetsBoth(index: nat, app: nat, kind: nat)
    requires app < 100 && kind < 3
    ensures Residue(app, kind) < 300
    ensures index % 300 == Residue(app, kind) <==> index % 100 == app && index % 3 == kind
  {
    var r := index % 300;
    Remainders(index / 300, r);
    assert index == 300 * (index / 300) + r;
    var h, a := r / 100, r % 100;
    assert r == 100 * h + a;
    HundredsDigit(h, app, kind);
    if index % 300 == Residue(app, kind) {
      SplitHundreds((kind + 2 * app) % 3, app);
    }
  }

  lemma SplitHundreds(h: nat, app: nat)
    requires app < 100
    ensures (app + 100 * h) / 100 == h && (app + 100 * h) % 100 == app
  {
  }

  /** An event at an index counts for an application and a type exactly at one residue. */
  lemma CountedAtResidue(e: Event, index: nat, appIDs: seq<UUID>, eventID: nat -> UUID, app: nat, kind: nat)
    requires |appIDs| == APPLICATIONS && app < 100 && kind < 3 && IsGenerated(e, index, appIDs, eventID)
    requires AllDifferent(appIDs)
    ensures e.appID == appIDs[app] && e.eventType == TYPES[kind] <==> index % 300 == Residue(app, kind)
  {
    ResidueMeetsBoth(index, app, kind);
  }

  const EVERYTHING: Filter := Filter(None, None, "", "")

  /** The rows of one application, as the query without filters selects them. */
  lemma {:induction false} TypeCount(
    events: seq<Event>, appIDs: seq<UUID>, eventID: nat -> UUID, app: nat, kind: nat)
    requires |appIDs| == APPLICATIONS && app < 100 && kind < 3 && AreGenerated(events, appIDs, eventID)
    requires AllDifferent(appIDs)
    ensures CountType(MatchingRows(events, appIDs[app], EVERYTHING), TYPES[kind])
            == CountResidue(|events|, Residue(app, kind))
  {
    if events != [] {
      var init, last := events[..|events| - 1], events[|events| - 1];
      TypeCount(init, appIDs, eventID, app, kind);
      CountedAtResidue(last, |init|, appIDs, eventID, app, kind);
      CountSnoc(MatchingRows(init, appIDs[app], EVERYTHING), last, TYPES[kind]);
    }
  }

  /** Every application and type, for every number of events. */
  lemma PairCount(events: seq<Event>, appIDs: seq<UUID>, eventID: nat -> UUID, app: nat, kind: nat)
    requires |appIDs| == APPLICATIONS && app < 100 && kind < 3 && AreGenerated(events, appIDs, eventID)
    requires AllDifferent(appIDs)
    ensures CountType(MatchingRows(events, appIDs[app], EVERYTHING), TYPES[kind])
            == (|events| + 299 - Residue(app, kind)) / 300
    ensures |events| % 300 == 0 ==>
              CountType(MatchingRows(events, appIDs[app], EVERYTHING), TYPES[kind]) == |events| / 300
  {
    TypeCount(events, appIDs, eventID, app, kind);
    ResidueMeetsBoth(0, app, kind);
    ResidueCount(|events|, Residue(app, kind));
    var n, r := |events|, Residue(app, kind);
    if n % 300 == 0 {
      assert n == 300 * (n / 300);
    }
  }

  lemma {:induction false} RevenueBounds(events: seq<Event>, appIDs: seq<UUID>, eventID: nat -> UUID, id: UUID)
    requires |appIDs| == APPLICATIONS && AreGenerated(events, appIDs, eventID)
    ensures var a := Statistics(events, id, EVERYTHING);
            100 * a.purchases <= a.revenueCents <= 10_000 * a.purchases
  {
    if events != [] {
      var init, last := events[..|events| - 1], events[|events| - 1];
      RevenueBounds(init, appIDs, eventID, id);
      CountSnoc(MatchingRows(init, id, EVERYTHING), last, PURCHASE);
      RevenueSnoc(MatchingRows(init, id, EVERYTHING), last);
    }
  }

  function Ceiling(n: nat, d: nat): nat
    requires d > 0
  {
    (n + d - 1) / d
  }

  lemma Thirds(n: nat)
    ensures (n + 299) / 300 == Ceiling(Ceiling(n, 100), 3)
    ensures (n + 199) / 300 == (Ceiling(n, 100) + 1) / 3
    ensures (n + 99) / 300 == Ceiling(n, 100) / 3
    ensures (n + 299) / 300 + (n + 199) / 300 + (n + 99) / 300 == Ceiling(n, 100)
  {
  }

  ghost predicate ThirdsOf(a: Aggregates, m: nat) {
    && a.installs == Ceiling(m, 3) && a.sessions == (m + 1) / 3 && a.purchases == m / 3
    && a.installs + a.sessions + a.purchases == m
    && 100 * a.purchases <= a.revenueCents <= 10_000 * a.purchases
  }

  lemma FirstApplication(events: seq<Event>, appIDs: seq<UUID>, eventID: nat -> UUID)
    requires |appIDs| == APPLICATIONS && AreGenerated(events, appIDs, eventID)
    requires AllDifferent(appIDs)
    ensures var a, n := Statistics(events, appIDs[0], EVERYTHING), |events|;
            a.installs == (n + 299) / 300 && a.sessions == (n + 199) / 300 && a.purchases == (n + 99) / 300
  {
    PairCount(events, appIDs, eventID, 0, 0);
    PairCount(events, appIDs, eventID, 0, 1);
    PairCount(events, appIDs, eventID, 0, 2);
    assert Residue(0, 0) == 0 && Residue(0, 1) == 100 && Residue(0, 2) == 200;
  }

  /**
   The statistics of the analysed application: of its ceil(n/100) events a third each, rounded up,
   to nearest and down, are installs, sessions and purchases, and the revenue stays within the bounds of the draws.
   */
  lemma AnalysedApplication(events: seq<Event>, appIDs: seq<UUID>, eventID: nat -> UUID)
    requires |appIDs| == APPLICATIONS && AreGenerated(events, appIDs, eventID)
    requires AllDifferent(appIDs)
    ensures ThirdsOf(Statistics(events, appIDs[0], EVERYTHING), Ceiling(|events|, 100))
  {
    FirstApplication(events, appIDs, eventID);
    RevenueBounds(events, appIDs, eventID, appIDs[0]);
    ThirdsFollow(Statistics(events, appIDs[0], EVERYTHING), |events|);
  }

  lemma ThirdsFollow(a: Aggregates, n: nat)
    requires a.installs == (n + 299) / 300 && a.sessions == (n + 199) / 300 && a.purchases == (n + 99) / 300
    requires 100 * a.purchases <= a.revenueCents <= 10_000 * a.purchases
    ensures ThirdsOf(a, Ceiling(n, 100))
  {
    Thirds(n);
  }

  /** The published analysis of 100,000 events: 334 installs, 333 sessions and 333 purchases. */
  lemma PublishedCounts(events: seq<Event>, appIDs: seq<UUID>, eventID: nat -> UUID)
    requires |appIDs| == APPLICATIONS && AreGenerated(events, appIDs, eventID) && |events| == 100_000
    requires AllDifferent(appIDs)
    ensures var a := Statistics(events, appIDs[0], EVERYTHING);
            && a.installs == 334 && a.sessions == 333 && a.purchases == 333
            && 33_300 <= a.revenueCents <= 3_330_000
  {
    AnalysedApplication(events, appIDs, eventID);
  }
}
