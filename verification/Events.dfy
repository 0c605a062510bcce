/**
 The application event, its validation, and the message body that carries it through the broker.
 Identifiers are opaque values with equality and an order; 0 stands for the nil UUID.
 An instant counts ticks from 0001-01-01T00:00:00Z, the zero time.
 */
module Events {
  import opened Common

  type UUID = nat

  const NIL: UUID := 0

  const INSTALL := "install"
  const SESSION := "session"
  const PURCHASE := "purchase"

  const ANDROID := "android"
  const IOS := "ios"

  datatype Timestamp = Timestamp(instant: int, offset: int) {
    predicate IsZero() {
      instant == 0
    }

    /** The same instant, shown with a zero offset. */
    function UTC(): Timestamp {
      Timestamp(instant, 0)
    }
  }

  datatype Event = Event(
    eventID: UUID, appID: UUID, eventType: string, country: string, platform: string,
    revenueCents: int, timestamp: Timestamp)

  datatype Input = Input(
    appID: UUID, eventType: string, country: string, platform: string,
    revenueCents: int, timestamp: Timestamp)

  datatype EventError =
    | EventIDRequired
    | AppIDRequired
    | EventTypeInvalid
    | CountryRequired
    | PlatformInvalid
    | PurchaseRevenueInvalid
    | TimestampRequired

  // ---------- white space ----------

  /** The Unicode characters with the White_Space property. */
  predicate IsSpace(c: char) {
    || '\U{9}' <= c <= '\U{D}' || c == ' ' || c == '\U{85}' || c == '\U{A0}' || c == '\U{1680}'
    || '\U{2000}' <= c <= '\U{200A}' || c == '\U{2028}' || c == '\U{2029}' || c == '\U{202F}'
    || c == '\U{205F}' || c == '\U{3000}'
  }

  function TrimLeft(s: string): string {
    if s != [] && IsSpace(s[0]) then TrimLeft(s[1..]) else s
  }

  function TrimRight(s: string): string {
    if s != [] && IsSpace(s[|s| - 1]) then TrimRight(s[..|s| - 1]) else s
  }

  function TrimSpace(s: string): string {
    TrimRight(TrimLeft(s))
  }

  ghost predicate Blank(s: string) {
    forall i | 0 <= i < |s| :: IsSpace(s[i])
  }

  ghost predicate Tight(s: string) {
    s != [] ==> !IsSpace(s[0]) && !IsSpace(s[|s| - 1])
  }

  lemma {:induction false} TrimLeftSplits(s: string) returns (i: nat)
    ensures i <= |s| && Blank(s[..i]) && TrimLeft(s) == s[i..]
    ensures i < |s| ==> !IsSpace(s[i])
  {
    if s != [] && IsSpace(s[0]) {
      var j := TrimLeftSplits(s[1..]);
      i := j + 1;
      assert s[..i] == [s[0]] + s[1..][..j];
    } else {
      i := 0;
    }
  }

  lemma {:induction false} TrimRightSplits(s: string) returns (j: nat)
    ensures j <= |s| && Blank(s[j..]) && TrimRight(s) == s[..j]
    ensures 0 < j ==> !IsSpace(s[j - 1])
  {
    if s != [] && IsSpace(s[|s| - 1]) {
      var t := s[..|s| - 1];
      j := TrimRightSplits(t);
      assert s[j..] == t[j..] + [s[|s| - 1]];
      assert s[..j] == t[..j];
    } else {
      j := |s|;
    }
  }

  /** Trimming takes off exactly the white space at both ends. */
  lemma TrimSpaceSplits(s: string) returns (before: string, after: string)
    ensures s == before + TrimSpace(s) + after
    ensures Blank(before) && Blank(after) && Tight(TrimSpace(s))
    ensures TrimSpace(s) == [] <==> Blank(s)
  {
    var i := TrimLeftSplits(s);
    var left := s[i..];
    var j := TrimRightSplits(left);
    before, after := s[..i], left[j..];
    if j != 0 {
      assert !IsSpace(s[i]) && TrimSpace(s)[0] == s[i];
    }
  }

  /** A text without white space at its ends is left alone. */
  lemma TrimKeepsTight(s: string)
    requires Tight(s)
    ensures TrimSpace(s) == s
  {
  }

  lemma TrimIdempotent(s: string)
    ensures TrimSpace(TrimSpace(s)) == TrimSpace(s)
  {
    var _, _ := TrimSpaceSplits(s);
    TrimKeepsTight(TrimSpace(s));
  }

  // ---------- validation ----------

  function ValidateInput(input: Input): Option<EventError> {
    if input.appID == NIL then Some(AppIDRequired)
    else if input.eventType != INSTALL && input.eventType != SESSION && input.eventType != PURCHASE then
      Some(EventTypeInvalid)
    else if TrimSpace(input.country) == "" then Some(CountryRequired)
    else if input.platform != ANDROID && input.platform != IOS then Some(PlatformInvalid)
    else if input.eventType == PURCHASE && input.revenueCents < 0 then Some(PurchaseRevenueInvalid)
    else if input.timestamp.IsZero() then Some(TimestampRequired)
    else None
  }

  function InputOf(e: Event): Input {
    Input(e.appID, e.eventType, e.country, e.platform, e.revenueCents, e.timestamp)
  }

  function Validate(e: Event): Option<EventError> {
    if e.eventID == NIL then Some(EventIDRequired) else ValidateInput(InputOf(e))
  }

  /** What each error is about, whatever the other checks say. */
  ghost predicate Fails(e: Event, error: EventError) {
    match error
    case EventIDRequired => e.eventID == NIL
    case AppIDRequired => e.appID == NIL
    case EventTypeInvalid => e.eventType !in {INSTALL, SESSION, PURCHASE}
    case CountryRequired => Blank(e.country)
    case PlatformInvalid => e.platform !in {ANDROID, IOS}
    case PurchaseRevenueInvalid => e.eventType == PURCHASE && e.revenueCents < 0
    case TimestampRequired => e.timestamp.instant == 0
  }

  /** The place of a check in the order in which they are made. */
  function Rank(error: EventError): nat {
    match error
    case EventIDRequired => 0
    case AppIDRequired => 1
    case EventTypeInvalid => 2
    case CountryRequired => 3
    case PlatformInvalid => 4
    case PurchaseRevenueInvalid => 5
    case TimestampRequired => 6
  }

  /** Of the checks from the first-th on, this is the first that fails. */
  ghost predicate FirstFailing(e: Event, first: nat, error: EventError) {
    && first <= Rank(error) && Fails(e, error)
    && forall other | first <= Rank(other) < Rank(error) :: !Fails(e, other)
  }

  /** The error given is that of the first check that fails. */
  lemma InputErrorIsFirstFailing(e: Event, error: EventError)
    ensures ValidateInput(InputOf(e)) == Some(error) <==> FirstFailing(e, 1, error)
  {
    var _, _ := TrimSpaceSplits(e.country);
    var found := ValidateInput(InputOf(e));
    if found.Some? {
      forall other | 1 <= Rank(other) < Rank(found.value) ensures !Fails(e, other) {
        match other
        case EventIDRequired =>
        case AppIDRequired =>
        case EventTypeInvalid =>
        case CountryRequired =>
        case PlatformInvalid =>
        case PurchaseRevenueInvalid =>
        case TimestampRequired =>
      }
      assert FirstFailing(e, 1, found.value);
    }
  }

  lemma ValidateGivesFirstFailing(e: Event, error: EventError)
    ensures Validate(e) == Some(error) <==> FirstFailing(e, 0, error)
  {
    InputErrorIsFirstFailing(e, error);
    assert Fails(e, EventIDRequired) <==> e.eventID == NIL;
  }

  /** What a stored row must look like, said without the order of the checks. */
  ghost predicate WellFormed(e: Event) {
    && e.eventID != NIL
    && e.appID != NIL
    && e.eventType in {INSTALL, SESSION, PURCHASE}
    && e.platform in {ANDROID, IOS}
    && !Blank(e.country)
    && (e.eventType == PURCHASE ==> 0 <= e.revenueCents)
    && e.timestamp.instant != 0
  }

  /** The consumer's check accepts exactly the well-formed events. */
  lemma ValidateIffWellFormed(e: Event)
    ensures Validate(e) == None <==> WellFormed(e)
  {
    var _, _ := TrimSpaceSplits(e.country);
  }

  // ---------- message bodies ----------

  /** A message body: the JSON form of one event, or bytes that do not decode to an event. */
  datatype Body = Malformed(bytes: seq<bv8>) | Encoded(event: Event)

  /** The event the consumer hands on, or nothing when it treats the message as poison. */
  function Accept(body: Body): Option<Event> {
    if body.Encoded? && Validate(body.event) == None then Some(body.event) else None
  }

  /** The row the store keeps for an event: its timestamp is written in UTC. */
  function RowOf(e: Event): Event {
    e.(timestamp := e.timestamp.UTC())
  }

  function RowsOf(events: seq<Event>): seq<Event> {
    seq(|events|, i requires 0 <= i < |events| => RowOf(events[i]))
  }

  /** A row keeps every field of its event, the instant included; only the offset it is shown with becomes zero. */
  lemma RowCarriesEvent(e: Event)
    ensures var row := RowOf(e);
            && row.eventID == e.eventID && row.appID == e.appID && row.eventType == e.eventType
            && row.country == e.country && row.platform == e.platform && row.revenueCents == e.revenueCents
            && row.timestamp.instant == e.timestamp.instant && row.timestamp.offset == 0
  {
  }
}
