/** Accepting events: the checks of the ingestion service and confirmed publication. */
module Publishing {
  import opened Common
  import opened Events

  datatype PublishError = MarshalFailed | PublisherClosed | SendFailed | NoConfirmation | WaitFailed | Nacked

  /** What the channel and the broker do with one publication; an ack means that the broker has the message. */
  datatype Outcome =
    | CannotMarshal
    | CannotSend(reached: bool)
    | WithoutConfirmation(reached: bool)
    | WaitEnds(reached: bool)
    | Answered(ack: bool)

  predicate Reaches(outcome: Outcome) {
    match outcome
    case CannotMarshal => false
    case CannotSend(reached) => reached
    case WithoutConfirmation(reached) => reached
    case WaitEnds(reached) => reached
    case Answered(ack) => ack
  }

  class Publisher {
    var closed: bool
    /** The messages that reached the broker through this publisher, oldest first. */
    var accepted: seq<Body>
    var closes: nat

    ghost predicate Valid()
      reads this
    {
      closes == if closed then 1 else 0
    }

    constructor ()
      ensures Valid() && !closed && accepted == []
    {
      closed := false;
      accepted := [];
      closes := 0;
    }

    /**
     No error means that the broker confirmed exactly this message. In every case at most this
     message reaches the broker, and none does once the publisher is closed; the error tells which
     step failed first.
     */
    method Publish(e: Event, outcome: Outcome) returns (error: Option<PublishError>)
      requires Valid()
      modifies this`accepted
      ensures Valid()
      ensures error.None? <==> !closed && outcome == Answered(true)
      ensures error == Some(MarshalFailed) <==> outcome.CannotMarshal?
      ensures error == Some(PublisherClosed) <==> closed && !outcome.CannotMarshal?
      ensures error == Some(SendFailed) <==> !closed && outcome.CannotSend?
      ensures error == Some(NoConfirmation) <==> !closed && outcome.WithoutConfirmation?
      ensures error == Some(WaitFailed) <==> !closed && outcome.WaitEnds?
      ensures error == Some(Nacked) <==> !closed && outcome == Answered(false)
      ensures accepted == old(accepted) + if !closed && Reaches(outcome) then [Encoded(e)] else []
    {
      if outcome.CannotMarshal? {
        return Some(MarshalFailed);
      }
      if closed {
        return Some(PublisherClosed);
      }
      if Reaches(outcome) {
        accepted := accepted + [Encoded(e)];
      }
      match outcome
      case CannotSend(_) => error := Some(SendFailed);
      case WithoutConfirmation(_) => error := Some(NoConfirmation);
      case WaitEnds(_) => error := Some(WaitFailed);
      case Answered(ack) => error := if ack then None else Some(Nacked);
    }

    method Close()
      requires Valid()
      modifies this`closed, this`closes
      ensures Valid() && closed
    {
      if closed {
        return;
      }
      closed := true;
      closes := closes + 1;
    }
  }

  datatype Lookup = Found | Missing | LookupFailed

  datatype IngestError =
    | Invalid(reason: EventError)
    | AppLookupFailed
    | AppNotFound
    | NotPublished(failure: PublishError)

  /** The input as the service checks it: with the country trimmed. */
  function Trimmed(input: Input): Input {
    input.(country := TrimSpace(input.country))
  }

  /** The event made of a checked input. */
  function EventOf(id: UUID, input: Input): Event {
    Event(id, input.appID, input.eventType, TrimSpace(input.country), input.platform, input.revenueCents,
          input.timestamp.UTC())
  }

  /** The second text is the first without the white space at its ends. */
  ghost predicate IsTrimOf(s: string, t: string) {
    Tight(t) && exists before, after | Blank(before) && Blank(after) :: s == before + t + after
  }

  /** The event carries what was put in, field by field, under a new identifier. */
  ghost predicate Carries(e: Event, id: UUID, input: Input) {
    && e.eventID == id
    && e.appID == input.appID && e.eventType == input.eventType && e.platform == input.platform
    && e.revenueCents == input.revenueCents
    && e.timestamp.instant == input.timestamp.instant && e.timestamp.offset == 0
    && IsTrimOf(input.country, e.country)
  }

  lemma EventCarriesInput(id: UUID, input: Input)
    ensures Carries(EventOf(id, input), id, input)
  {
    var before, after := TrimSpaceSplits(input.country);
  }

  /**
   Ingest checks the input, looks the application up and publishes, in that order; the application
   lookup, the new identifier and the fate of the publication come from outside. What it returns and
   what it publishes carry the input field by field.
   */
  method Ingest(publisher: Publisher, input: Input, lookup: UUID -> Lookup, newID: UUID, outcome: Outcome)
    returns (result: Result<Event, IngestError>)
    requires publisher.Valid()
    modifies publisher`accepted
    ensures publisher.Valid()
    ensures result.Ok? <==>
              && ValidateInput(input) == None && lookup(input.appID) == Found
              && !publisher.closed && outcome == Answered(true)
    ensures result.Ok? ==>
              && Carries(result.value, newID, input)
              && publisher.accepted == old(publisher.accepted) + [Encoded(result.value)]
    ensures if ValidateInput(input) == None && lookup(input.appID) == Found && !publisher.closed && Reaches(outcome) then
              exists e | Carries(e, newID, input) :: publisher.accepted == old(publisher.accepted) + [Encoded(e)]
            else publisher.accepted == old(publisher.accepted)
    ensures forall reason :: result == Err(Invalid(reason)) <==> ValidateInput(input) == Some(reason)
    ensures result == Err(AppLookupFailed) <==> ValidateInput(input) == None && lookup(input.appID) == LookupFailed
    ensures result == Err(AppNotFound) <==> ValidateInput(input) == None && lookup(input.appID) == Missing
    ensures result.Err? && result.error.NotPublished? ==>
              && ValidateInput(input) == None && lookup(input.appID) == Found
              && (publisher.closed && !outcome.CannotMarshal? <==> result.error.failure == PublisherClosed)
              && (outcome == Answered(false) && !publisher.closed <==> result.error.failure == Nacked)
  {
    TrimmedInputValidatesAlike(input);
    EventCarriesInput(newID, input);
    var checked := Trimmed(input);
    var invalid := ValidateInput(checked);
    if invalid.Some? {
      return Err(Invalid(invalid.value));
    }
    match lookup(checked.appID)
    case LookupFailed => return Err(AppLookupFailed);
    case Missing => return Err(AppNotFound);
    case Found =>
    var e := Event(newID, checked.appID, checked.eventType, checked.country, checked.platform,
                   checked.revenueCents, checked.timestamp.UTC());
    assert e == EventOf(newID, input);
    var failed := publisher.Publish(e, outcome);
    if failed.Some? {
      return Err(NotPublished(failed.value));
    }
    result := Ok(e);
  }

  lemma TrimmedInputValidatesAlike(input: Input)
    ensures ValidateInput(Trimmed(input)) == ValidateInput(input)
  {
    TrimIdempotent(input.country);
  }

  /**
   Validity is end to end: whatever Ingest publishes passes the consumer's check unchanged, because
   trimming is idempotent and UTC keeps the instant.
   */
  lemma PublishedPassesConsumer(id: UUID, input: Input)
    requires id != NIL && ValidateInput(input) == None
    ensures Accept(Encoded(EventOf(id, input))) == Some(EventOf(id, input))
    ensures RowOf(EventOf(id, input)) == EventOf(id, input)
  {
    TrimmedInputValidatesAlike(input);
    assert InputOf(EventOf(id, input)) == Trimmed(input).(timestamp := input.timestamp.UTC());
  }
}
