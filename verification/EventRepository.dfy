/** The ClickHouse batch writer: one prepared batch per call, appended row by row, sent, then closed. */
module EventRepositories {
  import opened Common
  import opened Events
  import opened FlushMachine

  datatype InsertError = PrepareFailed | AppendFailed(id: UUID) | SendFailed | CloseFailed

  /** A failed send may leave any part of the batch in the table: a block is split by partition. */
  datatype SendAnswer = Sent | NotSent(landed: seq<Event>)

  /** What the driver answers during one call: appendFails is the row, if any, that cannot be appended. */
  datatype Answers = Answers(prepares: bool, appendFails: Option<nat>, send: SendAnswer, closes: bool)

  /** The rows of a batch that a failed send leaves in the table. */
  function PartOf(appended: seq<Event>, landed: seq<Event>): (part: seq<Event>)
    ensures multiset(part) <= multiset(appended)
    ensures multiset(landed) <= multiset(appended) ==> part == landed
  {
    if multiset(landed) <= multiset(appended) then landed else []
  }

  /** Every step of the call works: that is when, and only when, it reports no error. */
  predicate Works(answers: Answers, events: seq<Event>) {
    || events == []
    || (answers.prepares && answers.send.Sent? && answers.closes
        && (answers.appendFails.Some? ==> |events| <= answers.appendFails.value))
  }

  /** The first step that fails, if any, told by the answers in the order of the steps. */
  ghost predicate FailsFirst(answers: Answers, events: seq<Event>, error: InsertError) {
    && events != []
    && match error
       case PrepareFailed => !answers.prepares
       case AppendFailed(id) =>
         && answers.prepares && answers.appendFails.Some? && answers.appendFails.value < |events|
         && id == events[answers.appendFails.value].eventID
       case SendFailed =>
         && answers.prepares && answers.send.NotSent?
         && (answers.appendFails.Some? ==> |events| <= answers.appendFails.value)
       case CloseFailed =>
         && answers.prepares && answers.send.Sent? && !answers.closes
         && (answers.appendFails.Some? ==> |events| <= answers.appendFails.value)
  }

  /** The events table behind a connection. */
  class Connection {
    var rows: seq<Event>

    constructor ()
      ensures rows == []
    {
      rows := [];
    }
  }

  /** A native batch of the driver. */
  class DriverBatch {
    const connection: Connection
    const answers: Answers
    var appended: seq<Event>

    constructor (connection: Connection, answers: Answers)
      ensures this.connection == connection && this.answers == answers && appended == []
    {
      this.connection := connection;
      this.answers := answers;
      appended := [];
    }

    method Append(row: Event) returns (ok: bool)
      modifies this
      ensures ok <==> answers.appendFails != Some(|old(appended)|)
      ensures appended == if ok then old(appended) + [row] else old(appended)
    {
      ok := answers.appendFails != Some(|appended|);
      if ok {
        appended := appended + [row];
      }
    }

    method Send() returns (ok: bool)
      modifies connection
      ensures ok <==> answers.send.Sent?
      ensures connection.rows
              == old(connection.rows) + if ok then appended else PartOf(appended, answers.send.landed)
    {
      ok := answers.send.Sent?;
      connection.rows := connection.rows + if ok then appended else PartOf(appended, answers.send.landed);
    }

    method Close() returns (ok: bool)
      ensures ok <==> answers.closes
    {
      ok := answers.closes;
    }
  }

  class EventRepository {
    const connection: Connection
    /** What the driver answers during the k-th call of InsertBatch. */
    const script: nat -> Answers
    var calls: nat

    constructor (connection: Connection, script: nat -> Answers)
      ensures this.connection == connection && this.script == script && calls == 0
    {
      this.connection := connection;
      this.script := script;
      calls := 0;
    }

    /**
     Stores the events with one batch, in UTC and in order. There is no error exactly when every
     step works; otherwise the errors are that of the first step that fails and, if there was a
     batch to close and that fails too, that of the close. The rows are stored as soon as the send
     succeeds, whatever the close reports; before it none is; a failed send leaves any part of them.
     */
    method InsertBatch(events: seq<Event>) returns (errors: seq<InsertError>)
      modifies this`calls, connection
      ensures calls == old(calls) + 1
      ensures var answers := script(old(calls));
              && (errors == [] <==> Works(answers, events))
              && (errors != [] ==> FailsFirst(answers, events, errors[0]) && |errors| <= 2)
              && (|errors| == 2 ==> errors[1] == CloseFailed)
              && (errors != [] && answers.prepares ==> (CloseFailed in errors <==> !answers.closes))
      ensures old(connection.rows) <= connection.rows
      ensures Possible(RowsOf(events), errors == [], connection.rows[|old(connection.rows)|..])
      ensures errors == [] || errors == [CloseFailed] ==> connection.rows == old(connection.rows) + RowsOf(events)
      ensures errors != [] && errors[0] == SendFailed ==>
                connection.rows == old(connection.rows) + PartOf(RowsOf(events), script(old(calls)).send.landed)
      ensures errors != [] && errors[0] != SendFailed && errors[0] != CloseFailed ==> connection.rows == old(connection.rows)
    {
      var answers := script(calls);
      calls := calls + 1;
      if |events| == 0 {
        return [];
      }
      if !answers.prepares {
        return [PrepareFailed];
      }
      var batch := new DriverBatch(connection, answers);
      ghost var before := connection.rows;
      errors := FillAndSend(batch, events);
      assert connection.rows[|before|..]
          == if errors == [] then RowsOf(events)
             else if errors == [SendFailed] then PartOf(RowsOf(events), answers.send.landed) else [];
      // the deferred close
      var closed := batch.Close();
      if !closed {
        errors := errors + [CloseFailed];
      }
    }

    method FillAndSend(batch: DriverBatch, events: seq<Event>) returns (errors: seq<InsertError>)
      requires batch.connection == connection && batch.appended == []
      modifies batch, connection
      ensures var fails := batch.answers.appendFails;
              if fails.Some? && fails.value < |events| then
                errors == [AppendFailed(events[fails.value].eventID)] && connection.rows == old(connection.rows)
              else if batch.answers.send.Sent? then
                errors == [] && connection.rows == old(connection.rows) + RowsOf(events)
              else
                && errors == [SendFailed]
                && connection.rows == old(connection.rows) + PartOf(RowsOf(events), batch.answers.send.landed)
    {
      for i := 0 to |events|
        invariant batch.appended == RowsOf(events[..i])
        invariant connection.rows == old(connection.rows)
        invariant batch.answers.appendFails.Some? ==> i <= batch.answers.appendFails.value
      {
        var ok := batch.Append(RowOf(events[i]));
        if !ok {
          return [AppendFailed(events[i].eventID)];
        }
        assert RowsOf(events[..i + 1]) == RowsOf(events[..i]) + [RowOf(events[i])];
      }
      assert events[..|events|] == events;
      var sent := batch.Send();
      errors := if sent then [] else [SendFailed];
    }
  }
}
