/**
 The flush of one batch, as a machine that takes one step for each call it makes to the store or
 the broker: insert attempts with growing waits between them, then one settlement per delivery.
 The worker's Flush method is proved to be a run of this machine, and the concurrent pipeline
 interleaves the same steps with the receiver, the clock and the broker.
 */
module FlushMachine {
  import opened Common
  import opened Events

  datatype Config = Config(
    batchSize: nat,      // deliveries that trigger an immediate flush; also the channel's capacity
    prefetch: nat,       // unsettled deliveries the broker allows
    batchTimeout: nat,   // longest wait after the first delivery of a batch
    maxAttempts: nat,    // insert attempts before a batch is rejected
    backoff: nat)        // first wait between insert attempts

  /** Batches of 500 for at most 1 s, 3 attempts, 100 ms first wait; times in milliseconds. */
  const PRODUCTION := Config(500, 500, 1000, 3, 100)

  datatype Delivery = Delivery(tag: nat, event: Event, rejectable: bool)

  /** One settlement call made by the worker, with what it reported. */
  datatype Call = Ack(tag: nat, ok: bool) | Reject(tag: nat, ok: bool)

  datatype Phase =
    | Inserting(attempt: nat)             // about to make this insert attempt
    | Waiting(attempt: nat, until: nat)   // this attempt failed; waiting before the next
    | Acking(next: nat, failed: bool)     // about to ack batch[next]
    | Rejecting(next: nat)                // about to reject batch[next]
    | Finished(ok: bool)

  datatype Flush = Flush(
    batch: seq<Delivery>, cancellable: bool, phase: Phase,
    rows: seq<Event>, calls: seq<Call>, now: nat, slept: nat)

  datatype Act =
    | Insert(ok: bool, landed: seq<Event>)
    | Wake(at: nat)
    | CutShort
    | Settle(ok: bool)
    | Skip

  // ---------- deduplication ----------

  predicate HasId(events: seq<Event>, id: UUID) {
    exists i | 0 <= i < |events| :: events[i].eventID == id
  }

  predicate BatchHasId(batch: seq<Delivery>, id: UUID) {
    exists i | 0 <= i < |batch| :: batch[i].event.eventID == id
  }

  function CountId(events: seq<Event>, id: UUID): nat {
    if events == [] then 0
    else CountId(events[..|events| - 1], id) + if events[|events| - 1].eventID == id then 1 else 0
  }

  /** The events of a batch without the repeats of an id already seen. */
  function Dedup(batch: seq<Delivery>): seq<Event> {
    if batch == [] then []
    else
      var earlier := Dedup(batch[..|batch| - 1]);
      var e := batch[|batch| - 1].event;
      if HasId(earlier, e.eventID) then earlier else earlier + [e]
  }

  /** The position in the batch that each kept event came from. */
  ghost predicate FirstOccurrences(batch: seq<Delivery>, events: seq<Event>, at: seq<nat>) {
    && |at| == |events|
    && (forall i | 0 <= i < |at| ::
          && at[i] < |batch| && batch[at[i]].event == events[i]
          && (forall j | 0 <= j < at[i] :: batch[j].event.eventID != events[i].eventID))
    && (forall i, j | 0 <= i < j < |at| :: at[i] < at[j])
  }

  lemma BatchHasIdSnoc(batch: seq<Delivery>, d: Delivery, id: UUID)
    ensures BatchHasId(batch + [d], id) <==> BatchHasId(batch, id) || id == d.event.eventID
  {
    if BatchHasId(batch, id) {
      var i :| 0 <= i < |batch| && batch[i].event.eventID == id;
      assert (batch + [d])[i].event.eventID == id;
    }
    assert (batch + [d])[|batch|] == d;
  }

  /** Deduplication drops no id, and keeps no more than one event of each. */
  lemma {:induction false} DedupKeepsIds(batch: seq<Delivery>, id: UUID)
    ensures HasId(Dedup(batch), id) <==> BatchHasId(batch, id)
    ensures CountId(Dedup(batch), id) == if BatchHasId(batch, id) then 1 else 0
    ensures |Dedup(batch)| <= |batch| && (batch != [] ==> Dedup(batch) != [])
  {
    if batch != [] {
      var init, d := batch[..|batch| - 1], batch[|batch| - 1];
      assert batch == init + [d];
      DedupKeepsIds(init, id);
      DedupKeepsIds(init, d.event.eventID);
      BatchHasIdSnoc(init, d, id);
      var earlier := Dedup(init);
      if !HasId(earlier, d.event.eventID) {
        HasIdConcat(earlier, [d.event], id);
        CountIdConcat(earlier, [d.event], id);
        assert CountId([d.event], id) == if d.event.eventID == id then 1 else 0 by {
          assert [d.event][..0] == [];
        }
      }
    }
  }

  lemma FirstOccurrencesSnoc(batch: seq<Delivery>, d: Delivery, events: seq<Event>, at: seq<nat>)
    requires FirstOccurrences(batch, events, at)
    ensures FirstOccurrences(batch + [d], events, at)
    ensures !BatchHasId(batch, d.event.eventID) ==> FirstOccurrences(batch + [d], events + [d.event], at + [|batch|])
  {
    var more := batch + [d];
    assert forall j | 0 <= j < |batch| :: more[j] == batch[j];
    assert FirstOccurrences(more, events, at);
    if !BatchHasId(batch, d.event.eventID) {
      var events', at' := events + [d.event], at + [|batch|];
      assert forall i | 0 <= i < |at| :: at'[i] == at[i] && events'[i] == events[i];
      assert at'[|at|] == |batch| && events'[|at|] == d.event;
    }
  }

  /** The events kept are the first of their id in the batch, in batch order. */
  lemma {:induction false} DedupKeepsFirstOccurrences(batch: seq<Delivery>) returns (at: seq<nat>)
    ensures FirstOccurrences(batch, Dedup(batch), at)
  {
    at := [];
    if batch != [] {
      var init, d := batch[..|batch| - 1], batch[|batch| - 1];
      assert batch == init + [d];
      at := DedupKeepsFirstOccurrences(init);
      DedupKeepsIds(init, d.event.eventID);
      FirstOccurrencesSnoc(init, d, Dedup(init), at);
      if !HasId(Dedup(init), d.event.eventID) {
        at := at + [|init|];
      }
    }
  }

  lemma HasIdConcat(a: seq<Event>, b: seq<Event>, id: UUID)
    ensures HasId(a + b, id) <==> HasId(a, id) || HasId(b, id)
  {
    if HasId(a, id) {
      var i :| 0 <= i < |a| && a[i].eventID == id;
      assert (a + b)[i].eventID == id;
    }
    if HasId(b, id) {
      var i :| 0 <= i < |b| && b[i].eventID == id;
      assert (a + b)[|a| + i].eventID == id;
    }
  }

  lemma {:induction false} CountIdConcat(a: seq<Event>, b: seq<Event>, id: UUID)
    ensures CountId(a + b, id) == CountId(a, id) + CountId(b, id)
  {
    if b == [] {
      assert a + b == a;
    } else {
      CountIdConcat(a, b[..|b| - 1], id);
      assert (a + b)[..|a + b| - 1] == a + b[..|b| - 1];
    }
  }

  lemma TakeOut(b: seq<Event>, e: Event, id: UUID) returns (rest: seq<Event>)
    requires e in b
    ensures multiset(b) == multiset(rest) + multiset{e} && CountId(b, id) == CountId(rest, id) + CountId([e], id)
  {
    var i :| 0 <= i < |b| && b[i] == e;
    rest := b[..i] + b[i + 1..];
    assert b == b[..i] + [e] + b[i + 1..];
    CountIdConcat(b[..i], b[i + 1..], id);
    CountIdConcat(b[..i], [e], id);
    CountIdConcat(b[..i] + [e], b[i + 1..], id);
  }

  lemma {:induction false} CountIdWithinBag(a: seq<Event>, b: seq<Event>, id: UUID)
    requires multiset(a) <= multiset(b)
    ensures CountId(a, id) <= CountId(b, id)
  {
    if a != [] {
      var init, last := a[..|a| - 1], a[|a| - 1];
      assert a == init + [last];
      assert last in multiset(a) && last in multiset(b);
      var rest := TakeOut(b, last, id);
      assert multiset(a) == multiset(init) + multiset{last};
      forall e ensures multiset(init)[e] <= multiset(rest)[e] {
        assert multiset(a)[e] <= multiset(b)[e];
      }
      CountIdWithinBag(init, rest, id);
      assert CountId([last], id) == if last.eventID == id then 1 else 0;
    }
  }

  lemma RowsKeepIds(events: seq<Event>, id: UUID)
    ensures HasId(RowsOf(events), id) <==> HasId(events, id)
    ensures CountId(RowsOf(events), id) == CountId(events, id)
  {
    assert forall i | 0 <= i < |events| :: RowsOf(events)[i].eventID == events[i].eventID;
    if events != [] {
      RowsKeepIds(events[..|events| - 1], id);
      assert RowsOf(events)[..|events| - 1] == RowsOf(events[..|events| - 1]);
    }
  }

  // ---------- the machine ----------

  /**
   What an insert may do: reporting success means every row is in the store; a reported failure
   leaves any part of the rows behind, from none to all of them.
   */
  ghost predicate Possible(rows: seq<Event>, ok: bool, landed: seq<Event>) {
    && multiset(landed) <= multiset(rows)
    && (ok ==> landed == rows)
  }

  function Pow2(n: nat): nat {
    if n == 0 then 1 else 2 * Pow2(n - 1)
  }

  function Delay(cfg: Config, attempt: nat): nat
    requires 1 <= attempt
  {
    cfg.backoff * Pow2(attempt - 1)
  }

  /** The sum of the first n delays. */
  function TotalDelay(cfg: Config, n: nat): nat {
    if n == 0 then 0 else TotalDelay(cfg, n - 1) + Delay(cfg, n)
  }

  lemma {:induction false} TotalDelayClosedForm(cfg: Config, n: nat)
    ensures TotalDelay(cfg, n) == cfg.backoff * (Pow2(n) - 1)
  {
    if n > 0 {
      TotalDelayClosedForm(cfg, n - 1);
      assert Pow2(n) - 1 == (Pow2(n - 1) - 1) + Pow2(n - 1);
      assert cfg.backoff * (Pow2(n) - 1) == cfg.backoff * (Pow2(n - 1) - 1) + cfg.backoff * Pow2(n - 1);
    }
  }

  /** With no insert attempts configured, the retry loop is empty and the acks follow at once. */
  function Start(cfg: Config, batch: seq<Delivery>): Phase {
    if batch == [] then Finished(true)
    else if cfg.maxAttempts == 0 then Acking(0, false)
    else Inserting(1)
  }

  function StartFlush(
    cfg: Config, batch: seq<Delivery>, cancellable: bool, rows: seq<Event>, calls: seq<Call>, now: nat): Flush
  {
    Flush(batch, cancellable, Start(cfg, batch), rows, calls, now, 0)
  }

  ghost predicate Allowed(cfg: Config, f: Flush, a: Act) {
    match f.phase
    case Inserting(k) => 1 <= k && a.Insert? && Possible(RowsOf(Dedup(f.batch)), a.ok, a.landed)
    case Waiting(_, until) => (a.Wake? && f.now <= a.at && until <= a.at) || (a.CutShort? && f.cancellable)
    case Acking(i, _) => i < |f.batch| && a.Settle?
    case Rejecting(i) => i < |f.batch| && if f.batch[i].rejectable then a.Settle? else a.Skip?
    case Finished(_) => false
  }

  /** A failed attempt is followed by a wait, except the last one. */
  function DelayAfter(cfg: Config, attempt: nat, ok: bool): nat
    requires 1 <= attempt
  {
    if !ok && attempt < cfg.maxAttempts then Delay(cfg, attempt) else 0
  }

  function AfterAttempt(cfg: Config, attempt: nat, ok: bool, now: nat): Phase
    requires 1 <= attempt
  {
    if ok then Acking(0, false)
    else if attempt < cfg.maxAttempts then Waiting(attempt, now + Delay(cfg, attempt))
    else Rejecting(0)
  }

  function NextAck(batch: seq<Delivery>, next: nat, failed: bool): Phase {
    if next < |batch| then Acking(next, failed) else Finished(!failed)
  }

  function NextReject(batch: seq<Delivery>, next: nat): Phase {
    if next < |batch| then Rejecting(next) else Finished(false)
  }

  function Step(cfg: Config, f: Flush, a: Act): Flush
    requires Allowed(cfg, f, a)
  {
    match f.phase
    case Inserting(k) =>
      f.(rows := f.rows + a.landed,
         phase := AfterAttempt(cfg, k, a.ok, f.now),
         slept := f.slept + DelayAfter(cfg, k, a.ok))
    case Waiting(k, _) =>
      f.(phase := if a.Wake? then Inserting(k + 1) else Rejecting(0), now := if a.Wake? then a.at else f.now)
    case Acking(i, failed) =>
      f.(calls := f.calls + [Ack(f.batch[i].tag, a.ok)], phase := NextAck(f.batch, i + 1, failed || !a.ok))
    case Rejecting(i) =>
      f.(calls := if a.Settle? then f.calls + [Reject(f.batch[i].tag, a.ok)] else f.calls,
         phase := NextReject(f.batch, i + 1))
    case Finished(_) => f
  }

  /** The state after a list of steps, or nothing when some step was not possible. */
  ghost function Play(cfg: Config, f: Flush, acts: seq<Act>): Option<Flush> {
    if acts == [] then Some(f)
    else
      var before := Play(cfg, f, acts[..|acts| - 1]);
      var a := acts[|acts| - 1];
      if before.Some? && Allowed(cfg, before.value, a) then Some(Step(cfg, before.value, a)) else None
  }

  lemma PlaySnoc(cfg: Config, f: Flush, acts: seq<Act>, g: Flush, a: Act)
    requires Play(cfg, f, acts) == Some(g) && Allowed(cfg, g, a)
    ensures Play(cfg, f, acts + [a]) == Some(Step(cfg, g, a))
  {
    assert (acts + [a])[..|acts|] == acts;
  }

  // ---------- what a flush does ----------

  /** What the insert calls in a list of steps reported, in order. */
  function InsertResults(acts: seq<Act>): seq<bool> {
    if acts == [] then []
    else InsertResults(acts[..|acts| - 1]) + if acts[|acts| - 1].Insert? then [acts[|acts| - 1].ok] else []
  }

  function Inserts(acts: seq<Act>): nat {
    |InsertResults(acts)|
  }

  ghost predicate AllFailed(results: seq<bool>) {
    forall i | 0 <= i < |results| :: !results[i]
  }

  /** The last of the results, and only the last, is a success. */
  ghost predicate OnlyLastOk(results: seq<bool>) {
    results != [] && results[|results| - 1] && AllFailed(results[..|results| - 1])
  }

  /** A store whose inserts commit exactly when they report success. */
  ghost predicate ExactStore(acts: seq<Act>) {
    forall i | 0 <= i < |acts| && acts[i].Insert? && !acts[i].ok :: acts[i].landed == []
  }

  /** The calls are one ack for each delivery, in order. */
  ghost predicate AcksOf(calls: seq<Call>, batch: seq<Delivery>) {
    && |calls| == |batch|
    && forall i | 0 <= i < |calls| :: calls[i].Ack? && calls[i].tag == batch[i].tag
  }

  function Rejectable(batch: seq<Delivery>): seq<Delivery> {
    if batch == [] then []
    else Rejectable(batch[..|batch| - 1]) + if batch[|batch| - 1].rejectable then [batch[|batch| - 1]] else []
  }

  /** The calls are one reject for each delivery that offers one, in order. */
  ghost predicate RejectsOf(calls: seq<Call>, batch: seq<Delivery>) {
    && |calls| == |Rejectable(batch)|
    && forall i | 0 <= i < |calls| :: calls[i].Reject? && calls[i].tag == Rejectable(batch)[i].tag
  }

  ghost predicate AllOk(calls: seq<Call>) {
    forall i | 0 <= i < |calls| :: calls[i].ok
  }

  /** The tags of the calls that reported an error, in order. */
  function FailedTags(calls: seq<Call>): seq<nat> {
    if calls == [] then []
    else FailedTags(calls[..|calls| - 1]) + if calls[|calls| - 1].ok then [] else [calls[|calls| - 1].tag]
  }

  /** A tag is noted exactly if a call with that tag reported an error. */
  lemma {:induction false} FailedTagsExactly(calls: seq<Call>, tag: nat)
    ensures tag in FailedTags(calls) <==> exists i | 0 <= i < |calls| :: !calls[i].ok && calls[i].tag == tag
  {
    if calls != [] {
      var init, call := calls[..|calls| - 1], calls[|calls| - 1];
      assert calls == init + [call];
      FailedTagsExactly(init, tag);
    }
  }

  lemma FailedTagsSnoc(calls: seq<Call>, made: seq<Call>, call: Call)
    ensures FailedTags(made + [call]) == if call.ok then FailedTags(made) else FailedTags(made) + [call.tag]
    ensures (calls + made) + [call] == calls + (made + [call])
  {
    assert (made + [call])[..|made|] == made;
  }

  lemma {:induction false} NoFailedTagsIffAllOk(calls: seq<Call>)
    ensures FailedTags(calls) == [] <==> AllOk(calls)
  {
    if calls != [] {
      NoFailedTagsIffAllOk(calls[..|calls| - 1]);
    }
  }

  /** The tags of the deliveries that offer no reject or whose reject reported an error, in order. */
  function RejectErrors(batch: seq<Delivery>, calls: seq<Call>): seq<nat>
    requires |calls| == |Rejectable(batch)|
  {
    if batch == [] then []
    else
      var init, d := batch[..|batch| - 1], batch[|batch| - 1];
      if !d.rejectable then RejectErrors(init, calls) + [d.tag]
      else RejectErrors(init, calls[..|calls| - 1]) + if calls[|calls| - 1].ok then [] else [d.tag]
  }

  lemma RejectErrorsSnoc(batch: seq<Delivery>, calls: seq<Call>, i: nat, call: Call)
    requires i < |batch| && |calls| == |Rejectable(batch[..i])|
    ensures var more := if batch[i].rejectable then calls + [call] else calls;
            && |more| == |Rejectable(batch[..i + 1])|
            && RejectErrors(batch[..i + 1], more)
               == RejectErrors(batch[..i], calls) + if batch[i].rejectable && call.ok then [] else [batch[i].tag]
  {
    assert batch[..i + 1][..i] == batch[..i];
    assert (calls + [call])[..|calls|] == calls;
  }

  /** A tag is among the reject errors exactly if its delivery offered no reject or its reject reported an error. */
  lemma {:induction false} RejectErrorsExactly(batch: seq<Delivery>, calls: seq<Call>, tag: nat)
    requires RejectsOf(calls, batch)
    ensures tag in RejectErrors(batch, calls)
            <==> || (exists i | 0 <= i < |batch| :: !batch[i].rejectable && batch[i].tag == tag)
                 || (exists j | 0 <= j < |calls| :: !calls[j].ok && calls[j].tag == tag)
  {
    if batch != [] {
      var init, d := batch[..|batch| - 1], batch[|batch| - 1];
      assert batch == init + [d];
      if d.rejectable {
        var fewer, call := calls[..|calls| - 1], calls[|calls| - 1];
        assert calls == fewer + [call] && call.tag == d.tag;
        RejectErrorsExactly(init, fewer, tag);
      } else {
        RejectErrorsExactly(init, calls, tag);
      }
    }
  }

  ghost predicate AllStored(rows: seq<Event>, batch: seq<Delivery>) {
    forall i | 0 <= i < |batch| :: HasId(rows, batch[i].event.eventID)
  }

  /** No id gains more rows than there were inserts, and only ids of the batch gain any. */
  ghost predicate RowsBounded(f0: Flush, acts: seq<Act>, f: Flush) {
    forall id :: CountId(f.rows, id) <= CountId(f0.rows, id) + if BatchHasId(f0.batch, id) then Inserts(acts) else 0
  }

  /** With an exact store, the rows added are the batch's, or none. */
  ghost predicate RowsExact(f0: Flush, acts: seq<Act>, f: Flush) {
    ExactStore(acts) ==>
      f.rows == f0.rows + if OnlyLastOk(InsertResults(acts)) then RowsOf(Dedup(f0.batch)) else []
  }

  /** What holds after any list of steps of one flush. */
  ghost predicate Progress(cfg: Config, f0: Flush, acts: seq<Act>, f: Flush) {
    && f.batch == f0.batch && f.cancellable == f0.cancellable
    && f0.rows <= f.rows && f0.calls <= f.calls && f0.now <= f.now
    && InPhase(cfg, acts, f, f.calls[|f0.calls|..])
  }

  ghost predicate InPhase(cfg: Config, acts: seq<Act>, f: Flush, calls: seq<Call>) {
    match f.phase
    case Inserting(k) =>
      && f.batch != [] && 1 <= k <= cfg.maxAttempts && Inserts(acts) == k - 1
      && AllFailed(InsertResults(acts)) && f.slept == TotalDelay(cfg, k - 1) && calls == []
    case Waiting(k, _) =>
      && f.batch != [] && 1 <= k < cfg.maxAttempts && Inserts(acts) == k
      && AllFailed(InsertResults(acts)) && f.slept == TotalDelay(cfg, k) && calls == []
    case Acking(i, failed) =>
      && i < |f.batch| && AcksOf(calls, f.batch[..i]) && (failed <==> !AllOk(calls))
      && AckedAfterInsert(cfg, acts, f)
    case Rejecting(i) =>
      && i < |f.batch| && RejectsOf(calls, f.batch[..i]) && GaveUp(cfg, acts, f)
    case Finished(ok) =>
      || (f.batch == [] && ok && calls == [] && Inserts(acts) == 0)
      || (f.batch != [] && AcksOf(calls, f.batch) && (ok <==> AllOk(calls)) && AckedAfterInsert(cfg, acts, f))
      || (f.batch != [] && RejectsOf(calls, f.batch) && !ok && GaveUp(cfg, acts, f))
  }

  /** A batch is acked after its last insert, and only that one, succeeded. */
  ghost predicate AckedAfterInsert(cfg: Config, acts: seq<Act>, f: Flush) {
    if cfg.maxAttempts == 0 then Inserts(acts) == 0 && f.slept == 0
    else
      && 1 <= Inserts(acts) <= cfg.maxAttempts
      && OnlyLastOk(InsertResults(acts))
      && AllStored(f.rows, f.batch)
      && f.slept == TotalDelay(cfg, Inserts(acts) - 1)
  }

  /** A batch is rejected after all attempts failed, or, where waits can be cut short, after some did. */
  ghost predicate GaveUp(cfg: Config, acts: seq<Act>, f: Flush) {
    && 1 <= Inserts(acts) <= cfg.maxAttempts
    && AllFailed(InsertResults(acts))
    && (!f.cancellable ==>
          Inserts(acts) == cfg.maxAttempts && f.slept == TotalDelay(cfg, cfg.maxAttempts - 1))
  }

  lemma InsertsSnoc(acts: seq<Act>, a: Act)
    ensures InsertResults(acts + [a]) == InsertResults(acts) + if a.Insert? then [a.ok] else []
    ensures ExactStore(acts + [a]) <==> ExactStore(acts) && (a.Insert? && !a.ok ==> a.landed == [])
  {
    var more := acts + [a];
    assert more[..|acts|] == acts && more[|acts|] == a;
    assert forall i | 0 <= i < |acts| :: more[i] == acts[i];
  }

  // One more step of a run, spelled out.

  lemma PlayInsert(cfg: Config, f0: Flush, acts: seq<Act>, f: Flush, k: nat, ok: bool, landed: seq<Event>)
    requires Play(cfg, f0, acts) == Some(f) && f.phase == Inserting(k) && 1 <= k
    requires Possible(RowsOf(Dedup(f.batch)), ok, landed)
    ensures Play(cfg, f0, acts + [Insert(ok, landed)])
            == Some(Flush(f.batch, f.cancellable, AfterAttempt(cfg, k, ok, f.now), f.rows + landed, f.calls, f.now,
                          f.slept + DelayAfter(cfg, k, ok)))
    ensures Inserts(acts + [Insert(ok, landed)]) == Inserts(acts) + 1
  {
    PlaySnoc(cfg, f0, acts, f, Insert(ok, landed));
    InsertsSnoc(acts, Insert(ok, landed));
  }

  lemma PlayAck(cfg: Config, f0: Flush, acts: seq<Act>, f: Flush, i: nat, failed: bool, ok: bool)
    requires Play(cfg, f0, acts) == Some(f) && f.phase == Acking(i, failed) && i < |f.batch|
    ensures Play(cfg, f0, acts + [Settle(ok)])
            == Some(Flush(f.batch, f.cancellable, NextAck(f.batch, i + 1, failed || !ok), f.rows,
                          f.calls + [Ack(f.batch[i].tag, ok)], f.now, f.slept))
    ensures InsertResults(acts + [Settle(ok)]) == InsertResults(acts)
  {
    PlaySnoc(cfg, f0, acts, f, Settle(ok));
    InsertsSnoc(acts, Settle(ok));
  }

  lemma PlayReject(cfg: Config, f0: Flush, acts: seq<Act>, f: Flush, i: nat, ok: bool)
    requires Play(cfg, f0, acts) == Some(f) && f.phase == Rejecting(i) && i < |f.batch|
    ensures var act := if f.batch[i].rejectable then Settle(ok) else Skip;
            && Play(cfg, f0, acts + [act])
               == Some(Flush(f.batch, f.cancellable, NextReject(f.batch, i + 1), f.rows,
                             if f.batch[i].rejectable then f.calls + [Reject(f.batch[i].tag, ok)] else f.calls,
                             f.now, f.slept))
            && InsertResults(acts + [act]) == InsertResults(acts)
  {
    var act := if f.batch[i].rejectable then Settle(ok) else Skip;
    PlaySnoc(cfg, f0, acts, f, act);
    InsertsSnoc(acts, act);
  }

  /** What one insert adds, id by id: at most one row for an id of the batch, and none for another. */
  lemma InsertAddsAtMostOneRow(batch: seq<Delivery>, ok: bool, landed: seq<Event>, id: UUID)
    requires Possible(RowsOf(Dedup(batch)), ok, landed)
    ensures CountId(landed, id) <= if BatchHasId(batch, id) then 1 else 0
    ensures ok && BatchHasId(batch, id) ==> HasId(landed, id)
  {
    var rows := RowsOf(Dedup(batch));
    CountIdWithinBag(landed, rows, id);
    RowsKeepIds(Dedup(batch), id);
    DedupKeepsIds(batch, id);
  }

  lemma InsertStep(cfg: Config, f0: Flush, acts: seq<Act>, f: Flush, a: Act)
    requires Progress(cfg, f0, acts, f) && f.phase.Inserting? && Allowed(cfg, f, a)
    ensures Progress(cfg, f0, acts + [a], Step(cfg, f, a))
  {
    var g := Step(cfg, f, a);
    InsertsSnoc(acts, a);
    assert g.calls[|f0.calls|..] == [] && f.batch[..0] == [];
    if a.ok {
      forall i | 0 <= i < |f.batch| ensures HasId(g.rows, f.batch[i].event.eventID) {
        var id := f.batch[i].event.eventID;
        assert BatchHasId(f.batch, id);
        InsertAddsAtMostOneRow(f.batch, a.ok, a.landed, id);
        HasIdConcat(f.rows, a.landed, id);
      }
    }
  }

  lemma SettleCalls(calls: seq<Call>, call: Call, batch: seq<Delivery>, i: nat)
    requires i < |batch|
    ensures AllOk(calls + [call]) <==> AllOk(calls) && call.ok
    ensures AcksOf(calls, batch[..i]) && call.Ack? && call.tag == batch[i].tag ==> AcksOf(calls + [call], batch[..i + 1])
    ensures RejectsOf(calls, batch[..i]) && batch[i].rejectable && call.Reject? && call.tag == batch[i].tag ==>
              RejectsOf(calls + [call], batch[..i + 1])
    ensures RejectsOf(calls, batch[..i]) && !batch[i].rejectable ==> RejectsOf(calls, batch[..i + 1])
  {
    assert batch[..i + 1][..i] == batch[..i];
    assert (calls + [call])[|calls|] == call;
    assert forall j | 0 <= j < |calls| :: (calls + [call])[j] == calls[j];
  }

  lemma AckStep(cfg: Config, f0: Flush, acts: seq<Act>, f: Flush, a: Act)
    requires Progress(cfg, f0, acts, f) && f.phase.Acking? && Allowed(cfg, f, a)
    ensures Progress(cfg, f0, acts + [a], Step(cfg, f, a))
  {
    var g, i := Step(cfg, f, a), f.phase.next;
    InsertsSnoc(acts, a);
    var before, call := f.calls[|f0.calls|..], Ack(f.batch[i].tag, a.ok);
    SettleCalls(before, call, f.batch, i);
    assert g.calls[|f0.calls|..] == before + [call];
    assert f.batch[..|f.batch|] == f.batch;
    assert AckedAfterInsert(cfg, acts + [a], g);
    if i + 1 < |f.batch| {
      assert g.phase.Acking?;
    } else {
      assert g.phase.Finished?;
    }
  }

  lemma RejectStep(cfg: Config, f0: Flush, acts: seq<Act>, f: Flush, a: Act)
    requires Progress(cfg, f0, acts, f) && f.phase.Rejecting? && Allowed(cfg, f, a)
    ensures Progress(cfg, f0, acts + [a], Step(cfg, f, a))
  {
    var g, i := Step(cfg, f, a), f.phase.next;
    InsertsSnoc(acts, a);
    var before, call := f.calls[|f0.calls|..], Reject(f.batch[i].tag, a.Settle? && a.ok);
    SettleCalls(before, call, f.batch, i);
    assert g.calls[|f0.calls|..] == if a.Settle? then before + [call] else before;
    assert f.batch[..|f.batch|] == f.batch;
    assert GaveUp(cfg, acts + [a], g);
  }

  lemma StartProgress(cfg: Config, f0: Flush)
    requires f0 == StartFlush(cfg, f0.batch, f0.cancellable, f0.rows, f0.calls, f0.now)
    ensures Progress(cfg, f0, [], f0)
  {
    assert f0.calls[|f0.calls|..] == [] && f0.batch[..0] == [];
  }

  lemma WaitStep(cfg: Config, f0: Flush, acts: seq<Act>, f: Flush, a: Act)
    requires Progress(cfg, f0, acts, f) && f.phase.Waiting? && Allowed(cfg, f, a)
    ensures Progress(cfg, f0, acts + [a], Step(cfg, f, a))
  {
    InsertsSnoc(acts, a);
    assert f.batch[..0] == [];
  }

  lemma ProgressStep(cfg: Config, f0: Flush, acts: seq<Act>, f: Flush, a: Act)
    requires Progress(cfg, f0, acts, f) && Allowed(cfg, f, a)
    ensures Progress(cfg, f0, acts + [a], Step(cfg, f, a))
  {
    match f.phase
    case Inserting(_) => InsertStep(cfg, f0, acts, f, a);
    case Waiting(_, _) => WaitStep(cfg, f0, acts, f, a);
    case Acking(_, _) => AckStep(cfg, f0, acts, f, a);
    case Rejecting(_) => RejectStep(cfg, f0, acts, f, a);
    case Finished(_) =>
  }

  lemma {:induction false} ProgressAlways(cfg: Config, f0: Flush, acts: seq<Act>, f: Flush)
    requires f0 == StartFlush(cfg, f0.batch, f0.cancellable, f0.rows, f0.calls, f0.now)
    requires Play(cfg, f0, acts) == Some(f)
    ensures Progress(cfg, f0, acts, f)
  {
    if acts == [] {
      StartProgress(cfg, f0);
    } else {
      var init, a := acts[..|acts| - 1], acts[|acts| - 1];
      var p := Play(cfg, f0, init).value;
      ProgressAlways(cfg, f0, init, p);
      assert acts == init + [a];
      ProgressStep(cfg, f0, init, p, a);
    }
  }

  lemma InsertRowsBounded(cfg: Config, f0: Flush, acts: seq<Act>, f: Flush, a: Act)
    requires RowsBounded(f0, acts, f) && f.batch == f0.batch && f.phase.Inserting? && Allowed(cfg, f, a)
    ensures RowsBounded(f0, acts + [a], Step(cfg, f, a))
  {
    InsertsSnoc(acts, a);
    var rows := f.rows + a.landed;
    forall id
      ensures CountId(rows, id) <= CountId(f0.rows, id) + if BatchHasId(f0.batch, id) then Inserts(acts + [a]) else 0
    {
      InsertAddsAtMostOneRow(f.batch, a.ok, a.landed, id);
      CountIdConcat(f.rows, a.landed, id);
    }
    assert Step(cfg, f, a).rows == rows;
  }

  lemma InsertRowsExact(cfg: Config, f0: Flush, acts: seq<Act>, f: Flush, a: Act)
    requires RowsExact(f0, acts, f) && f.batch == f0.batch && f.phase.Inserting? && Allowed(cfg, f, a)
    requires AllFailed(InsertResults(acts))
    ensures RowsExact(f0, acts + [a], Step(cfg, f, a))
  {
    InsertsSnoc(acts, a);
    LastResult(InsertResults(acts), a.ok);
    if ExactStore(acts + [a]) {
      assert f.rows == f0.rows + [];
      assert Step(cfg, f, a).rows == f.rows + a.landed;
      if a.ok {
        assert a.landed == RowsOf(Dedup(f0.batch));
      }
    }
  }

  /** After failures only, one more result decides whether the last and only the last is a success. */
  lemma LastResult(results: seq<bool>, ok: bool)
    requires AllFailed(results)
    ensures !OnlyLastOk(results) && (OnlyLastOk(results + [ok]) <==> ok)
  {
    assert (results + [ok])[..|results|] == results;
  }

  lemma OtherStepsKeepRows(cfg: Config, f0: Flush, acts: seq<Act>, f: Flush, a: Act)
    requires RowsBounded(f0, acts, f) && RowsExact(f0, acts, f) && !f.phase.Inserting? && Allowed(cfg, f, a)
    ensures RowsBounded(f0, acts + [a], Step(cfg, f, a)) && RowsExact(f0, acts + [a], Step(cfg, f, a))
  {
    InsertsSnoc(acts, a);
    assert !a.Insert? && InsertResults(acts) + [] == InsertResults(acts);
    match f.phase
    case Waiting(_, _) =>
    case Acking(_, _) =>
    case Rejecting(_) =>
    case Finished(_) =>
  }

  lemma {:induction false} RowsAlways(cfg: Config, f0: Flush, acts: seq<Act>, f: Flush)
    requires f0 == StartFlush(cfg, f0.batch, f0.cancellable, f0.rows, f0.calls, f0.now)
    requires Play(cfg, f0, acts) == Some(f)
    ensures RowsBounded(f0, acts, f) && RowsExact(f0, acts, f)
  {
    if acts != [] {
      var init, a := acts[..|acts| - 1], acts[|acts| - 1];
      var p := Play(cfg, f0, init).value;
      RowsAlways(cfg, f0, init, p);
      ProgressAlways(cfg, f0, init, p);
      assert acts == init + [a];
      if p.phase.Inserting? {
        InsertRowsBounded(cfg, f0, init, p, a);
        InsertRowsExact(cfg, f0, init, p, a);
      } else {
        OtherStepsKeepRows(cfg, f0, init, p, a);
      }
    }
  }

  // ---------- theorems about a whole flush ----------

  /**
   A finished flush settled its batch exactly once and as a whole. Success means that every
   delivery was acked without error after its event reached the store; failure means that every
   ack was attempted and one failed, or that every available reject was attempted.
   */
  lemma FlushSettlesWholeBatch(cfg: Config, f0: Flush, acts: seq<Act>, f: Flush)
    requires f0 == StartFlush(cfg, f0.batch, f0.cancellable, f0.rows, f0.calls, f0.now)
    requires Play(cfg, f0, acts) == Some(f) && f.phase.Finished?
    ensures f0.calls <= f.calls
    ensures var calls := f.calls[|f0.calls|..];
            if f.phase.ok then AcksOf(calls, f.batch) && AllOk(calls)
            else (AcksOf(calls, f.batch) && !AllOk(calls)) || RejectsOf(calls, f.batch)
    ensures f.phase.ok && 1 <= cfg.maxAttempts ==> AllStored(f.rows, f.batch)
  {
    ProgressAlways(cfg, f0, acts, f);
  }

  lemma RetryCounts(cfg: Config, f0: Flush, acts: seq<Act>, f: Flush)
    requires f0 == StartFlush(cfg, f0.batch, false, f0.rows, f0.calls, f0.now)
    requires f0.batch != [] && 1 <= cfg.maxAttempts
    requires Play(cfg, f0, acts) == Some(f) && f.phase.Finished?
    ensures 1 <= Inserts(acts) <= cfg.maxAttempts && f.slept == TotalDelay(cfg, Inserts(acts) - 1)
    ensures f0.calls <= f.calls
    ensures var calls := f.calls[|f0.calls|..];
            || (OnlyLastOk(InsertResults(acts)) && AcksOf(calls, f.batch))
            || (AllFailed(InsertResults(acts)) && Inserts(acts) == cfg.maxAttempts && !f.phase.ok && RejectsOf(calls, f.batch))
  {
    ProgressAlways(cfg, f0, acts, f);
    if !AckedAfterInsert(cfg, acts, f) {
      assert GaveUp(cfg, acts, f);
    }
  }

  /**
   Retry arithmetic. A batch that is acked had k inserts, only the last one successful, and waited
   backoff * (2^(k-1) - 1) in all; a batch that is rejected, when waits cannot be cut short, had
   exactly the configured number of inserts, all failed, and no wait after the last.
   */
  lemma RetryArithmetic(cfg: Config, f0: Flush, acts: seq<Act>, f: Flush)
    requires f0 == StartFlush(cfg, f0.batch, false, f0.rows, f0.calls, f0.now)
    requires f0.batch != [] && 1 <= cfg.maxAttempts
    requires Play(cfg, f0, acts) == Some(f) && f.phase.Finished?
    ensures 1 <= Inserts(acts) <= cfg.maxAttempts
    ensures f.slept == cfg.backoff * (Pow2(Inserts(acts) - 1) - 1)
    ensures f0.calls <= f.calls
    ensures var calls := f.calls[|f0.calls|..];
            || (OnlyLastOk(InsertResults(acts)) && AcksOf(calls, f.batch))
            || (AllFailed(InsertResults(acts)) && Inserts(acts) == cfg.maxAttempts && !f.phase.ok && RejectsOf(calls, f.batch))
  {
    RetryCounts(cfg, f0, acts, f);
    TotalDelayClosedForm(cfg, Inserts(acts) - 1);
  }

  /** No id gains more rows in a flush than there were inserts, and only ids of the batch gain any. */
  lemma FlushDuplicateBound(cfg: Config, f0: Flush, acts: seq<Act>, f: Flush, id: UUID)
    requires f0 == StartFlush(cfg, f0.batch, f0.cancellable, f0.rows, f0.calls, f0.now)
    requires Play(cfg, f0, acts) == Some(f)
    ensures CountId(f.rows, id) <= CountId(f0.rows, id) + if BatchHasId(f0.batch, id) then cfg.maxAttempts else 0
  {
    ProgressAlways(cfg, f0, acts, f);
    RowsAlways(cfg, f0, acts, f);
  }

  /**
   With a store that commits exactly when it reports success, a flush that got as far as acking
   added one row for each distinct id, the first occurrence, in order; a rejected one added none.
   */
  lemma ExactStoreAddsOneRowPerId(cfg: Config, f0: Flush, acts: seq<Act>, f: Flush)
    requires f0 == StartFlush(cfg, f0.batch, f0.cancellable, f0.rows, f0.calls, f0.now)
    requires Play(cfg, f0, acts) == Some(f) && f.phase.Finished? && ExactStore(acts) && 1 <= cfg.maxAttempts
    ensures f.rows == f0.rows || f.rows == f0.rows + RowsOf(Dedup(f0.batch))
    ensures f.phase.ok ==> f.rows == f0.rows + RowsOf(Dedup(f0.batch))
    ensures AllFailed(InsertResults(acts)) ==> f.rows == f0.rows
    ensures f.phase.ok ==>
              forall id :: CountId(f.rows, id) == CountId(f0.rows, id) + if BatchHasId(f0.batch, id) then 1 else 0
  {
    ProgressAlways(cfg, f0, acts, f);
    RowsAlways(cfg, f0, acts, f);
    forall id
      ensures CountId(f0.rows + RowsOf(Dedup(f0.batch)), id) ==
              CountId(f0.rows, id) + if BatchHasId(f0.batch, id) then 1 else 0
    {
      CountIdConcat(f0.rows, RowsOf(Dedup(f0.batch)), id);
      RowsKeepIds(Dedup(f0.batch), id);
      DedupKeepsIds(f0.batch, id);
    }
    if AllFailed(InsertResults(acts)) {
      assert !OnlyLastOk(InsertResults(acts));
    }
    if f.batch == [] {
      NoInsertsNoneSucceeded(acts);
    }
  }

  lemma {:induction false} NoInsertsNoneSucceeded(acts: seq<Act>)
    requires Inserts(acts) == 0
    ensures forall i | 0 <= i < |acts| :: !acts[i].Insert?
  {
    if acts != [] {
      NoInsertsNoneSucceeded(acts[..|acts| - 1]);
    }
  }

  /**
   Storing before acking depends on at least one configured attempt: with none, a flush of any
   non-empty batch acks everything without an insert.
   */
  lemma {:induction false} NoAttemptsAcksUnstored(cfg: Config, batch: seq<Delivery>, n: nat) returns (acts: seq<Act>)
    requires cfg.maxAttempts == 0 && n <= |batch| && batch != []
    ensures Play(cfg, StartFlush(cfg, batch, false, [], [], 0), acts).Some?
    ensures var f := Play(cfg, StartFlush(cfg, batch, false, [], [], 0), acts).value;
            f.batch == batch && f.rows == [] && |f.calls| == n && f.phase == NextAck(batch, n, false)
  {
    acts := [];
    if n > 0 {
      acts := NoAttemptsAcksUnstored(cfg, batch, n - 1);
      var f := Play(cfg, StartFlush(cfg, batch, false, [], [], 0), acts).value;
      PlaySnoc(cfg, StartFlush(cfg, batch, false, [], [], 0), acts, f, Settle(true));
      acts := acts + [Settle(true)];
    }
  }

  /** For a non-empty batch, every successful flush stores what it acks if and only if an attempt is configured. */
  lemma StoredBeforeAckIffAttempts(cfg: Config, batch: seq<Delivery>)
    requires batch != []
    ensures (forall acts, f | Play(cfg, StartFlush(cfg, batch, false, [], [], 0), acts) == Some(f) && f.phase == Finished(true) ::
              AllStored(f.rows, batch))
            <==> 1 <= cfg.maxAttempts
  {
    var f0 := StartFlush(cfg, batch, false, [], [], 0);
    if cfg.maxAttempts == 0 {
      var acts := NoAttemptsAcksUnstored(cfg, batch, |batch|);
      var f := Play(cfg, f0, acts).value;
      assert Play(cfg, f0, acts) == Some(f) && f.phase == Finished(true);
      assert !HasId(f.rows, batch[0].event.eventID);
      assert !AllStored(f.rows, batch);
    } else {
      forall acts, f | Play(cfg, f0, acts) == Some(f) && f.phase == Finished(true) ensures AllStored(f.rows, batch) {
        FlushSettlesWholeBatch(cfg, f0, acts, f);
        ProgressAlways(cfg, f0, acts, f);
      }
    }
  }
}
