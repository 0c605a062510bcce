/** The sequential part of the worker: flushing one batch, with retries, and rejecting one. */
module Workers {
  import opened Common
  import opened Events
  import opened FlushMachine
  import opened EventRepositories

  /** The settlement operations of the consumer's channel, with a log of the calls made. */
  class Channel {
    /** What the n-th settlement call reports. */
    const replies: nat -> bool
    var calls: seq<Call>

    constructor (replies: nat -> bool)
      ensures this.replies == replies && calls == []
    {
      this.replies := replies;
      calls := [];
    }

    method AckOne(tag: nat) returns (ok: bool)
      modifies this
      ensures ok == replies(|old(calls)|) && calls == old(calls) + [Ack(tag, ok)]
    {
      ok := replies(|calls|);
      calls := calls + [Ack(tag, ok)];
    }

    method RejectOne(tag: nat) returns (ok: bool)
      modifies this
      ensures ok == replies(|old(calls)|) && calls == old(calls) + [Reject(tag, ok)]
    {
      ok := replies(|calls|);
      calls := calls + [Reject(tag, ok)];
    }
  }

  /** The time spent waiting. */
  class Clock {
    var now: nat

    constructor ()
      ensures now == 0
    {
      now := 0;
    }

    method Advance(delay: nat)
      modifies this
      ensures now == old(now) + delay
    {
      now := now + delay;
    }
  }

  datatype FlushResult =
    | Flushed
    | PersistFailed(attempts: nat, interrupted: bool, rejectErrors: seq<nat>)
    | AckFailed(tags: seq<nat>)

  function NoteError(errors: seq<nat>, tag: nat, ok: bool): (r: seq<nat>)
    ensures r == [] <==> errors == [] && ok
  {
    if ok then errors else errors + [tag]
  }

  /** The calls report what the channel was to reply, from its base-th call on. */
  ghost predicate Answered(replies: nat -> bool, base: nat, calls: seq<Call>) {
    forall i | 0 <= i < |calls| :: calls[i].ok == replies(base + i)
  }

  ghost predicate AllReply(replies: nat -> bool, base: nat, n: nat) {
    forall i: nat | base <= i < base + n :: replies(i)
  }

  lemma AllOkIffAllReply(replies: nat -> bool, base: nat, calls: seq<Call>)
    requires Answered(replies, base, calls)
    ensures AllOk(calls) <==> AllReply(replies, base, |calls|)
  {
    if AllOk(calls) {
      forall i: nat | base <= i < base + |calls| ensures replies(i) {
        assert calls[i - base].ok;
      }
    }
  }

  /** The insert after a others works. */
  ghost predicate GoodAttempt(script: nat -> Answers, base: nat, a: nat, events: seq<Event>) {
    Works(script(base + a), events)
  }

  ghost predicate NoneWorks(script: nat -> Answers, base: nat, n: nat, events: seq<Event>) {
    forall a: nat | a < n :: !GoodAttempt(script, base, a, events)
  }

  /** None of the first n waits is cut short. */
  ghost predicate NoneCut(cancellable: bool, cut: nat -> bool, n: nat) {
    cancellable ==> forall k: nat | 1 <= k <= n :: !cut(k)
  }

  /** With these answers to come, one of the attempts allowed works before any wait is cut short. */
  ghost predicate Persists(
    maxAttempts: nat, script: nat -> Answers, base: nat, events: seq<Event>, cancellable: bool, cut: nat -> bool)
  {
    || maxAttempts == 0
    || exists a: nat | a < maxAttempts ::
         GoodAttempt(script, base, a, events) && NoneWorks(script, base, a, events) && NoneCut(cancellable, cut, a)
  }

  lemma PersistsNow(
    maxAttempts: nat, script: nat -> Answers, base: nat, n: nat, events: seq<Event>, cancellable: bool, cut: nat -> bool)
    requires n < maxAttempts && NoneWorks(script, base, n, events) && NoneCut(cancellable, cut, n)
    requires GoodAttempt(script, base, n, events)
    ensures Persists(maxAttempts, script, base, events, cancellable, cut)
  {
  }

  lemma PersistsNever(
    maxAttempts: nat, script: nat -> Answers, base: nat, n: nat, events: seq<Event>, cancellable: bool, cut: nat -> bool)
    requires 1 <= n <= maxAttempts && NoneWorks(script, base, n, events)
    requires n == maxAttempts || (cancellable && cut(n))
    ensures !Persists(maxAttempts, script, base, events, cancellable, cut)
  {
  }

  lemma NoneWorksNext(script: nat -> Answers, base: nat, n: nat, events: seq<Event>)
    requires NoneWorks(script, base, n, events) && !GoodAttempt(script, base, n, events)
    ensures NoneWorks(script, base, n + 1, events)
  {
  }

  lemma NoneCutNext(cancellable: bool, cut: nat -> bool, n: nat)
    requires NoneCut(cancellable, cut, n) && !(cancellable && cut(n + 1))
    ensures NoneCut(cancellable, cut, n + 1)
  {
  }

  lemma AnsweredNext(replies: nat -> bool, base: nat, made: seq<Call>, call: Call)
    requires Answered(replies, base, made) && call.ok == replies(base + |made|)
    ensures Answered(replies, base, made + [call])
  {
  }

  /** After the first i deliveries: the acks made, answered as was to be, and the errors they leave. */
  ghost predicate Acks(replies: nat -> bool, base: nat, i: nat, failed: seq<nat>, made: seq<Call>) {
    |made| == i && failed == FailedTags(made) && Answered(replies, base, made)
  }

  lemma AcksNext(
    replies: nat -> bool, calls: seq<Call>, i: nat, failed: seq<nat>, made: seq<Call>, tag: nat, n: nat, ok: bool)
    requires Acks(replies, |calls|, i, failed, made) && n == |calls| + |made| && ok == replies(n)
    ensures Acks(replies, |calls|, i + 1, NoteError(failed, tag, ok), made + [Ack(tag, ok)])
    ensures calls + (made + [Ack(tag, ok)]) == (calls + made) + [Ack(tag, ok)]
  {
    FailedTagsSnoc(calls, made, Ack(tag, ok));
    AnsweredNext(replies, |calls|, made, Ack(tag, ok));
  }

  /** After the first i deliveries: the rejects made, answered as was to be, and the errors they leave. */
  ghost predicate Rejections(
    replies: nat -> bool, base: nat, batch: seq<Delivery>, i: nat, failed: seq<nat>, made: seq<Call>)
  {
    && i <= |batch| && |made| == |Rejectable(batch[..i])|
    && failed == RejectErrors(batch[..i], made) && Answered(replies, base, made)
  }

  lemma RejectionsNext(
    replies: nat -> bool, calls: seq<Call>, batch: seq<Delivery>, i: nat, failed: seq<nat>, made: seq<Call>,
    n: nat, ok: bool)
    requires i < |batch| && Rejections(replies, |calls|, batch, i, failed, made)
    requires n == |calls| + |made| && (ok <==> batch[i].rejectable && replies(n))
    ensures var more := made + if batch[i].rejectable then [Reject(batch[i].tag, ok)] else [];
            && Rejections(replies, |calls|, batch, i + 1, NoteError(failed, batch[i].tag, ok), more)
            && calls + more == (calls + made) + if batch[i].rejectable then [Reject(batch[i].tag, ok)] else []
  {
    RejectErrorsSnoc(batch, made, i, Reject(batch[i].tag, ok));
    if batch[i].rejectable {
      AnsweredNext(replies, |calls|, made, Reject(batch[i].tag, ok));
    } else {
      assert made + [] == made && failed + [] == failed;
    }
  }

  class Worker {
    const cfg: Config
    const writer: EventRepository
    const channel: Channel
    const clock: Clock

    constructor (cfg: Config, writer: EventRepository, channel: Channel, clock: Clock)
      ensures this.cfg == cfg && this.writer == writer && this.channel == channel && this.clock == clock
    {
      this.cfg := cfg;
      this.writer := writer;
      this.channel := channel;
      this.clock := clock;
    }

    /** The state of the store, the calls and the clock, as a flush in this phase sees it. */
    ghost function View(batch: seq<Delivery>, cancellable: bool, phase: Phase, slept: nat): Flush
      reads writer.connection, channel, clock
    {
      FlushMachine.Flush.Flush(batch, cancellable, phase, writer.connection.rows, channel.calls, clock.now, slept)
    }

    /** Waits the whole delay, unless the context can be cancelled and is. */
    method WaitForRetry(delay: nat, cancellable: bool, cancelled: bool) returns (ok: bool)
      modifies clock
      ensures ok <==> !(cancellable && cancelled)
      ensures clock.now == old(clock.now) + if ok then delay else 0
    {
      if cancellable && cancelled {
        return false;
      }
      clock.Advance(delay);
      ok := true;
    }

    /** The events to insert: the first of every id, found with a set of the ids seen. */
    method Unique(batch: seq<Delivery>) returns (events: seq<Event>)
      ensures events == Dedup(batch)
    {
      events := [];
      var seen: set<UUID> := {};
      for i := 0 to |batch|
        invariant events == Dedup(batch[..i])
        invariant forall id :: id in seen <==> HasId(events, id)
      {
        assert batch[..i + 1][..i] == batch[..i];
        var e := batch[i].event;
        if e.eventID !in seen {
          forall id ensures HasId(events + [e], id) <==> HasId(events, id) || id == e.eventID {
            HasIdConcat(events, [e], id);
            assert [e][0] == e;
          }
          seen := seen + {e.eventID};
          events := events + [e];
        }
      }
      assert batch[..|batch|] == batch;
    }

    method InsertOnce(events: seq<Event>) returns (ok: bool, ghost landed: seq<Event>)
      modifies writer`calls, writer.connection
      ensures writer.calls == old(writer.calls) + 1 && ok == Works(writer.script(old(writer.calls)), events)
      ensures writer.connection.rows == old(writer.connection.rows) + landed && Possible(RowsOf(events), ok, landed)
    {
      var errors := writer.InsertBatch(events);
      ok := errors == [];
      landed := writer.connection.rows[|old(writer.connection.rows)|..];
    }

    /** One insert attempt, as a step of the machine. */
    method Attempt(batch: seq<Delivery>, cancellable: bool, events: seq<Event>, attempt: nat, slept: nat,
                   ghost f0: FlushMachine.Flush, ghost before: seq<Act>) returns (ok: bool, ghost acts: seq<Act>)
      requires 1 <= attempt <= cfg.maxAttempts && events == Dedup(batch)
      requires Play(cfg, f0, before) == Some(View(batch, cancellable, Inserting(attempt), slept))
      modifies writer`calls, writer.connection
      ensures writer.calls == old(writer.calls) + 1 && ok == Works(writer.script(old(writer.calls)), events)
      ensures Play(cfg, f0, acts)
              == Some(View(batch, cancellable, AfterAttempt(cfg, attempt, ok, clock.now), slept + DelayAfter(cfg, attempt, ok)))
      ensures Inserts(acts) == Inserts(before) + 1
    {
      ghost var f := View(batch, cancellable, Inserting(attempt), slept);
      ghost var landed;
      ok, landed := InsertOnce(events);
      PlayInsert(cfg, f0, before, f, attempt, ok, landed);
      acts := before + [Insert(ok, landed)];
    }

    /** One wait between attempts, as a step of the machine. */
    method Wait(batch: seq<Delivery>, cancellable: bool, attempt: nat, slept: nat, cancelled: bool,
                ghost f0: FlushMachine.Flush, ghost before: seq<Act>) returns (ok: bool, ghost acts: seq<Act>)
      requires 1 <= attempt
      requires Play(cfg, f0, before)
               == Some(View(batch, cancellable, Waiting(attempt, clock.now + Delay(cfg, attempt)), slept))
      modifies clock
      ensures ok <==> !(cancellable && cancelled)
      ensures clock.now == old(clock.now) + if ok then Delay(cfg, attempt) else 0
      ensures Play(cfg, f0, acts)
              == Some(View(batch, cancellable, if ok then Inserting(attempt + 1) else Rejecting(0), slept))
      ensures Inserts(acts) == Inserts(before)
    {
      ghost var f := View(batch, cancellable, Waiting(attempt, clock.now + Delay(cfg, attempt)), slept);
      ok := WaitForRetry(Delay(cfg, attempt), cancellable, cancelled);
      ghost var act := if ok then Wake(clock.now) else CutShort;
      PlaySnoc(cfg, f0, before, f, act);
      InsertsSnoc(before, act);
      acts := before + [act];
    }

    /** One turn of the retry loop: an attempt and, if it fails and is not the last, a wait. */
    method Retry(batch: seq<Delivery>, cancellable: bool, events: seq<Event>, attempt: nat, slept0: nat, cancelled: bool,
                 ghost f0: FlushMachine.Flush, ghost before: seq<Act>)
      returns (ok: bool, interrupted: bool, slept: nat, ghost acts: seq<Act>)
      requires 1 <= attempt <= cfg.maxAttempts && events == Dedup(batch)
      requires Play(cfg, f0, before) == Some(View(batch, cancellable, Inserting(attempt), slept0))
      modifies writer`calls, writer.connection, clock
      ensures writer.calls == old(writer.calls) + 1 && ok == Works(writer.script(old(writer.calls)), events)
      ensures interrupted <==> !ok && attempt < cfg.maxAttempts && cancellable && cancelled
      ensures !interrupted ==> clock.now - old(clock.now) == slept - slept0
      ensures Inserts(acts) == Inserts(before) + 1
      ensures Play(cfg, f0, acts) == Some(View(batch, cancellable, AfterTurn(attempt, ok, interrupted), slept))
    {
      interrupted := false;
      ok, acts := Attempt(batch, cancellable, events, attempt, slept0, f0, before);
      slept := slept0 + DelayAfter(cfg, attempt, ok);
      if !ok && attempt < cfg.maxAttempts {
        var waited;
        waited, acts := Wait(batch, cancellable, attempt, slept, cancelled, f0, acts);
        interrupted := !waited;
      }
    }

    /** What a turn of the retry loop decides, after earlier ones that decided nothing. */
    ghost predicate Decides(
      base: nat, attempt: nat, ok: bool, interrupted: bool, events: seq<Event>, cancellable: bool, cut: nat -> bool)
    {
      if ok || interrupted || attempt == cfg.maxAttempts then
        ok == Persists(cfg.maxAttempts, writer.script, base, events, cancellable, cut)
      else NoneWorks(writer.script, base, attempt, events) && NoneCut(cancellable, cut, attempt)
    }

    lemma TurnDecides(
      base: nat, attempt: nat, ok: bool, interrupted: bool, events: seq<Event>, cancellable: bool, cut: nat -> bool)
      requires 1 <= attempt <= cfg.maxAttempts && ok == Works(writer.script(base + attempt - 1), events)
      requires interrupted <==> !ok && attempt < cfg.maxAttempts && cancellable && cut(attempt)
      requires NoneWorks(writer.script, base, attempt - 1, events) && NoneCut(cancellable, cut, attempt - 1)
      ensures Decides(base, attempt, ok, interrupted, events, cancellable, cut)
    {
      assert ok == GoodAttempt(writer.script, base, attempt - 1, events);
      if ok {
        PersistsNow(cfg.maxAttempts, writer.script, base, attempt - 1, events, cancellable, cut);
      } else {
        NoneWorksNext(writer.script, base, attempt - 1, events);
        if interrupted || attempt == cfg.maxAttempts {
          PersistsNever(cfg.maxAttempts, writer.script, base, attempt, events, cancellable, cut);
        } else {
          NoneCutNext(cancellable, cut, attempt - 1);
        }
      }
    }

    /**
     The retry loop: what the machine does from its first attempt to its first settlement. The
     answers to come decide whether it succeeds; cut says which waits are cut short.
     */
    method Persist(batch: seq<Delivery>, cancellable: bool, cut: nat -> bool, events: seq<Event>)
      returns (ok: bool, attempts: nat, interrupted: bool, slept: nat, ghost acts: seq<Act>)
      requires batch != [] && events == Dedup(batch)
      modifies writer`calls, writer.connection, clock
      ensures ok <==> Persists(cfg.maxAttempts, writer.script, old(writer.calls), events, cancellable, cut)
      ensures attempts == Inserts(acts) && writer.calls == old(writer.calls) + attempts
      ensures interrupted ==> !ok && attempts < cfg.maxAttempts && cancellable && cut(attempts)
      ensures !interrupted ==> (ok || attempts == cfg.maxAttempts) && clock.now == old(clock.now) + slept
      ensures Play(cfg, old(View(batch, cancellable, Start(cfg, batch), 0)), acts)
              == Some(View(batch, cancellable, if ok then Acking(0, false) else Rejecting(0), slept))
    {
      ok, attempts, interrupted, slept, acts := true, 0, false, 0, [];
      ghost var f0, base, t0 := View(batch, cancellable, Start(cfg, batch), 0), writer.calls, clock.now;
      var attempt := 1;
      while attempt <= cfg.maxAttempts
        invariant attempts == Inserts(acts) == attempt - 1 && attempt <= cfg.maxAttempts + 1
        invariant writer.calls == base + attempts && clock.now == t0 + slept
        invariant Play(cfg, f0, acts) == Some(View(batch, cancellable, ResumePhase(attempt), slept))
        invariant !interrupted && (ok <==> attempts == 0)
        invariant if attempt <= cfg.maxAttempts then
                    NoneWorks(writer.script, base, attempts, events) && NoneCut(cancellable, cut, attempts)
                  else ok == Persists(cfg.maxAttempts, writer.script, base, events, cancellable, cut)
      {
        attempts := attempt;
        ok, interrupted, slept, acts := Retry(batch, cancellable, events, attempt, slept, cut(attempt), f0, acts);
        TurnDecides(base, attempt, ok, interrupted, events, cancellable, cut);
        if ok || interrupted {
          break;
        }
        attempt := attempt + 1;
      }
    }

    /** Where the machine stands after a turn of the retry loop. */
    ghost function AfterTurn(attempt: nat, ok: bool, interrupted: bool): Phase {
      if ok then Acking(0, false) else if interrupted then Rejecting(0) else ResumePhase(attempt + 1)
    }

    /** Where the retry loop stands before this attempt, or after the last one. */
    ghost function ResumePhase(attempt: nat): Phase {
      if cfg.maxAttempts == 0 then Acking(0, false)
      else if attempt <= cfg.maxAttempts then Inserting(attempt)
      else Rejecting(0)
    }

    /** One ack, as a step of the machine. */
    method AckOneOf(batch: seq<Delivery>, cancellable: bool, slept: nat, i: nat,
                    ghost failed: bool, ghost f0: FlushMachine.Flush, ghost before: seq<Act>)
      returns (ok: bool, ghost acts: seq<Act>)
      requires i < |batch| && Play(cfg, f0, before) == Some(View(batch, cancellable, NextAck(batch, i, failed), slept))
      modifies channel
      ensures ok == channel.replies(|old(channel.calls)|)
      ensures channel.calls == old(channel.calls) + [Ack(batch[i].tag, ok)]
      ensures Play(cfg, f0, acts) == Some(View(batch, cancellable, NextAck(batch, i + 1, failed || !ok), slept))
      ensures InsertResults(acts) == InsertResults(before)
    {
      ghost var f := View(batch, cancellable, Acking(i, failed), slept);
      ok := channel.AckOne(batch[i].tag);
      PlayAck(cfg, f0, before, f, i, failed, ok);
      acts := before + [Settle(ok)];
    }

    /** The next ack, noted among the errors if it fails. */
    method AckNext(batch: seq<Delivery>, cancellable: bool, slept: nat, i: nat, errors: seq<nat>,
                   ghost f0: FlushMachine.Flush, ghost before: seq<Act>, ghost calls: seq<Call>, ghost made0: seq<Call>)
      returns (failed: seq<nat>, ghost acts: seq<Act>, ghost made: seq<Call>)
      requires i < |batch| && Play(cfg, f0, before) == Some(View(batch, cancellable, NextAck(batch, i, errors != []), slept))
      requires channel.calls == calls + made0 && Acks(channel.replies, |calls|, i, errors, made0)
      modifies channel
      ensures channel.calls == calls + made && Acks(channel.replies, |calls|, i + 1, failed, made)
      ensures Play(cfg, f0, acts) == Some(View(batch, cancellable, NextAck(batch, i + 1, failed != []), slept))
      ensures InsertResults(acts) == InsertResults(before)
    {
      var ok;
      ghost var n := |channel.calls|;
      ok, acts := AckOneOf(batch, cancellable, slept, i, errors != [], f0, before);
      AcksNext(channel.replies, calls, i, errors, made0, batch[i].tag, n, ok);
      made := made0 + [Ack(batch[i].tag, ok)];
      failed := NoteError(errors, batch[i].tag, ok);
    }

    /** Acks every delivery, whatever the earlier acks reported. */
    method AckBatch(batch: seq<Delivery>, cancellable: bool, slept: nat, ghost f0: FlushMachine.Flush, ghost before: seq<Act>)
      returns (failed: seq<nat>, ghost acts: seq<Act>, ghost made: seq<Call>)
      requires batch != [] && Play(cfg, f0, before) == Some(View(batch, cancellable, Acking(0, false), slept))
      modifies channel
      ensures channel.calls == old(channel.calls) + made && |made| == |batch| && failed == FailedTags(made)
      ensures Answered(channel.replies, |old(channel.calls)|, made)
      ensures Play(cfg, f0, acts) == Some(View(batch, cancellable, Finished(failed == []), slept))
      ensures InsertResults(acts) == InsertResults(before)
    {
      ghost var calls := channel.calls;
      failed, acts, made := [], before, [];
      for i := 0 to |batch|
        invariant channel.calls == calls + made && Acks(channel.replies, |calls|, i, failed, made)
        invariant Play(cfg, f0, acts) == Some(View(batch, cancellable, NextAck(batch, i, failed != []), slept))
        invariant InsertResults(acts) == InsertResults(before)
      {
        failed, acts, made := AckNext(batch, cancellable, slept, i, failed, f0, acts, calls, made);
      }
    }

    /** One reject, or the note that none is available, as a step of the machine. */
    method RejectOneOf(batch: seq<Delivery>, cancellable: bool, slept: nat, i: nat,
                       ghost f0: FlushMachine.Flush, ghost before: seq<Act>)
      returns (ok: bool, ghost acts: seq<Act>)
      requires i < |batch| && Play(cfg, f0, before) == Some(View(batch, cancellable, NextReject(batch, i), slept))
      modifies channel
      ensures ok <==> batch[i].rejectable && channel.replies(|old(channel.calls)|)
      ensures channel.calls
              == old(channel.calls) + if batch[i].rejectable then [Reject(batch[i].tag, ok)] else []
      ensures Play(cfg, f0, acts) == Some(View(batch, cancellable, NextReject(batch, i + 1), slept))
      ensures InsertResults(acts) == InsertResults(before)
    {
      ghost var f := View(batch, cancellable, Rejecting(i), slept);
      if !batch[i].rejectable {
        ok := false;
        PlayReject(cfg, f0, before, f, i, false);
        acts := before + [Skip];
      } else {
        ok := channel.RejectOne(batch[i].tag);
        PlayReject(cfg, f0, before, f, i, ok);
        acts := before + [Settle(ok)];
      }
    }

    /** The next reject, noted among the errors if there is none or it fails. */
    method RejectNext(batch: seq<Delivery>, cancellable: bool, slept: nat, i: nat, errors: seq<nat>,
                      ghost f0: FlushMachine.Flush, ghost before: seq<Act>, ghost calls: seq<Call>, ghost made0: seq<Call>)
      returns (failed: seq<nat>, ghost acts: seq<Act>, ghost made: seq<Call>)
      requires i < |batch| && Play(cfg, f0, before) == Some(View(batch, cancellable, NextReject(batch, i), slept))
      requires channel.calls == calls + made0 && Rejections(channel.replies, |calls|, batch, i, errors, made0)
      modifies channel
      ensures channel.calls == calls + made && Rejections(channel.replies, |calls|, batch, i + 1, failed, made)
      ensures Play(cfg, f0, acts) == Some(View(batch, cancellable, NextReject(batch, i + 1), slept))
      ensures InsertResults(acts) == InsertResults(before)
    {
      var ok;
      ghost var n := |channel.calls|;
      ok, acts := RejectOneOf(batch, cancellable, slept, i, f0, before);
      RejectionsNext(channel.replies, calls, batch, i, errors, made0, n, ok);
      made := made0 + if batch[i].rejectable then [Reject(batch[i].tag, ok)] else [];
      failed := NoteError(errors, batch[i].tag, ok);
    }

    /** Rejects every delivery that can be rejected; the others count as errors. */
    method RejectBatch(batch: seq<Delivery>, cancellable: bool, slept: nat, ghost f0: FlushMachine.Flush, ghost before: seq<Act>)
      returns (failed: seq<nat>, ghost acts: seq<Act>, ghost made: seq<Call>)
      requires batch != [] && Play(cfg, f0, before) == Some(View(batch, cancellable, Rejecting(0), slept))
      modifies channel
      ensures channel.calls == old(channel.calls) + made && |made| == |Rejectable(batch)|
      ensures failed == RejectErrors(batch, made) && Answered(channel.replies, |old(channel.calls)|, made)
      ensures Play(cfg, f0, acts) == Some(View(batch, cancellable, Finished(false), slept))
      ensures InsertResults(acts) == InsertResults(before)
    {
      ghost var calls := channel.calls;
      failed, acts, made := [], before, [];
      for i := 0 to |batch|
        invariant channel.calls == calls + made && Rejections(channel.replies, |calls|, batch, i, failed, made)
        invariant Play(cfg, f0, acts) == Some(View(batch, cancellable, NextReject(batch, i), slept))
        invariant InsertResults(acts) == InsertResults(before)
      {
        failed, acts, made := RejectNext(batch, cancellable, slept, i, failed, f0, acts, calls, made);
      }
      assert batch[..|batch|] == batch;
    }

    /**
     Flushes one batch. The whole call is a run of the flush machine, so everything proved about
     that machine holds of it. Its result is decided by the answers to come: it succeeds exactly when an
     insert works in time and every ack after it does, or when the batch is empty.
     */
    method Flush(batch: seq<Delivery>, cancellable: bool, cut: nat -> bool)
      returns (result: FlushResult, slept: nat, ghost acts: seq<Act>)
      modifies writer`calls, writer.connection, channel, clock
      ensures var persists := Persists(cfg.maxAttempts, writer.script, old(writer.calls), Dedup(batch), cancellable, cut);
              && (result.PersistFailed? <==> batch != [] && !persists)
              && (result.Flushed? <==>
                    batch == [] || (persists && AllReply(channel.replies, |old(channel.calls)|, |batch|)))
      ensures writer.calls == old(writer.calls) + Inserts(acts)
      ensures !cancellable ==> clock.now == old(clock.now) + slept
      ensures Play(cfg, old(StartFlush(cfg, batch, cancellable, writer.connection.rows, channel.calls, clock.now)), acts)
              == Some(View(batch, cancellable, Finished(result.Flushed?), slept))
      ensures old(channel.calls) <= channel.calls
      ensures Describes(result, batch, cancellable, cut, channel.calls[|old(channel.calls)|..], Inserts(acts))
      ensures result.Flushed? && 1 <= cfg.maxAttempts ==> AllStored(writer.connection.rows, batch)
    {
      acts, slept := [], 0;
      if |batch| == 0 {
        assert channel.calls[|channel.calls|..] == [];
        return Flushed, slept, acts;
      }
      var events := Unique(batch);
      result, slept, acts := FlushEvents(batch, cancellable, cut, events);
    }

    method FlushEvents(batch: seq<Delivery>, cancellable: bool, cut: nat -> bool, events: seq<Event>)
      returns (result: FlushResult, slept: nat, ghost acts: seq<Act>)
      requires batch != [] && events == Dedup(batch)
      modifies writer`calls, writer.connection, channel, clock
      ensures var persists := Persists(cfg.maxAttempts, writer.script, old(writer.calls), events, cancellable, cut);
              && (result.PersistFailed? <==> !persists)
              && (result.Flushed? <==> persists && AllReply(channel.replies, |old(channel.calls)|, |batch|))
      ensures writer.calls == old(writer.calls) + Inserts(acts)
      ensures !cancellable ==> clock.now == old(clock.now) + slept
      ensures Play(cfg, old(StartFlush(cfg, batch, cancellable, writer.connection.rows, channel.calls, clock.now)), acts)
              == Some(View(batch, cancellable, Finished(result.Flushed?), slept))
      ensures old(channel.calls) <= channel.calls
      ensures Describes(result, batch, cancellable, cut, channel.calls[|old(channel.calls)|..], Inserts(acts))
      ensures result.Flushed? && 1 <= cfg.maxAttempts ==> AllStored(writer.connection.rows, batch)
    {
      ghost var f0 := StartFlush(cfg, batch, cancellable, writer.connection.rows, channel.calls, clock.now);
      var ok, attempts, interrupted;
      ok, attempts, interrupted, slept, acts := Persist(batch, cancellable, cut, events);
      ghost var f := View(batch, cancellable, if ok then Acking(0, false) else Rejecting(0), slept);
      ProgressAlways(cfg, f0, acts, f);
      if ok {
        result, acts := SettleStored(batch, cancellable, slept, f0, acts);
      } else {
        result, acts := SettleFailed(batch, cancellable, cut, attempts, interrupted, slept, f0, acts);
      }
    }

    /** The acks that follow a successful insert. */
    method SettleStored(batch: seq<Delivery>, cancellable: bool, slept: nat, ghost f0: FlushMachine.Flush, ghost before: seq<Act>)
      returns (result: FlushResult, ghost acts: seq<Act>)
      requires batch != [] && f0 == StartFlush(cfg, batch, cancellable, f0.rows, channel.calls, f0.now)
      requires Play(cfg, f0, before) == Some(View(batch, cancellable, Acking(0, false), slept))
      requires OnlyLastOk(InsertResults(before)) || cfg.maxAttempts == 0 == Inserts(before)
      modifies channel
      ensures !result.PersistFailed?
      ensures result.Flushed? <==> AllReply(channel.replies, |old(channel.calls)|, |batch|)
      ensures InsertResults(acts) == InsertResults(before) && old(channel.calls) <= channel.calls
      ensures Play(cfg, f0, acts) == Some(View(batch, cancellable, Finished(result.Flushed?), slept))
      ensures var calls := channel.calls[|old(channel.calls)|..];
              && AcksOf(calls, batch) && (result.Flushed? <==> AllOk(calls))
              && (result.AckFailed? ==> result.tags == FailedTags(calls))
      ensures 1 <= cfg.maxAttempts ==> AllStored(writer.connection.rows, batch)
    {
      var failed;
      ghost var made;
      failed, acts, made := AckBatch(batch, cancellable, slept, f0, before);
      result := if failed == [] then Flushed else AckFailed(failed);
      assert channel.calls[|f0.calls|..] == made;
      FinishedFlush(batch, cancellable, f0, acts, View(batch, cancellable, Finished(result.Flushed?), slept), true);
      NoFailedTagsIffAllOk(made);
      AllOkIffAllReply(channel.replies, |f0.calls|, made);
    }

    /** The rejects that follow the last failed insert. */
    method SettleFailed(
      batch: seq<Delivery>, cancellable: bool, cut: nat -> bool, attempts: nat, interrupted: bool, slept: nat,
      ghost f0: FlushMachine.Flush, ghost before: seq<Act>)
      returns (result: FlushResult, ghost acts: seq<Act>)
      requires batch != [] && f0 == StartFlush(cfg, batch, cancellable, f0.rows, channel.calls, f0.now)
      requires Play(cfg, f0, before) == Some(View(batch, cancellable, Rejecting(0), slept))
      requires AllFailed(InsertResults(before)) && 1 <= Inserts(before) <= cfg.maxAttempts
      modifies channel
      ensures InsertResults(acts) == InsertResults(before) && old(channel.calls) <= channel.calls
      ensures Play(cfg, f0, acts) == Some(View(batch, cancellable, Finished(false), slept))
      ensures var calls := channel.calls[|old(channel.calls)|..];
              && RejectsOf(calls, batch) && result == PersistFailed(attempts, interrupted, RejectErrors(batch, calls))
              && Answered(channel.replies, |old(channel.calls)|, calls)
    {
      var failed;
      ghost var made;
      failed, acts, made := RejectBatch(batch, cancellable, slept, f0, before);
      result := PersistFailed(attempts, interrupted, failed);
      assert channel.calls[|f0.calls|..] == made;
      FinishedFlush(batch, cancellable, f0, acts, View(batch, cancellable, Finished(false), slept), false);
    }

    /** What the result of a flush says about the calls it made and its insert attempts. */
    ghost predicate Describes(
      result: FlushResult, batch: seq<Delivery>, cancellable: bool, cut: nat -> bool, calls: seq<Call>, inserts: nat)
    {
      match result
      case Flushed => AcksOf(calls, batch) && AllOk(calls)
      case AckFailed(tags) => AcksOf(calls, batch) && !AllOk(calls) && tags == FailedTags(calls)
      case PersistFailed(attempts, interrupted, rejectErrors) =>
        && RejectsOf(calls, batch) && rejectErrors == RejectErrors(batch, calls)
        && 1 <= attempts <= cfg.maxAttempts && attempts == inserts
        && if interrupted then cancellable && cut(attempts) && attempts < cfg.maxAttempts
           else attempts == cfg.maxAttempts
    }

    lemma FinishedFlush(batch: seq<Delivery>, cancellable: bool, f0: FlushMachine.Flush, acts: seq<Act>,
                        f: FlushMachine.Flush, stored: bool)
      requires batch != [] && f0 == StartFlush(cfg, batch, cancellable, f0.rows, f0.calls, f0.now)
      requires Play(cfg, f0, acts) == Some(f) && f.phase.Finished?
      requires stored ==> OnlyLastOk(InsertResults(acts)) || cfg.maxAttempts == 0 == Inserts(acts)
      requires !stored ==> AllFailed(InsertResults(acts)) && 1 <= Inserts(acts) <= cfg.maxAttempts
      ensures f0.calls <= f.calls
      ensures var calls := f.calls[|f0.calls|..];
              if stored then
                && AcksOf(calls, batch) && (f.phase.ok <==> AllOk(calls))
                && (1 <= cfg.maxAttempts ==> AllStored(f.rows, batch))
              else RejectsOf(calls, batch) && !f.phase.ok && (!cancellable ==> Inserts(acts) == cfg.maxAttempts)
    {
      ProgressAlways(cfg, f0, acts, f);
    }
  }
}
