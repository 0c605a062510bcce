/** Theorems about every run of the pipeline: over all interleavings, failures, crashes and restarts. */
module PipelineSafety {
  import opened Common
  import opened Events
  import opened FlushMachine
  import opened Pipeline
  import opened PipelineFrames
  import opened PipelineInvariants

  // ---------- ack implies stored; nothing confirmed is lost ----------

  lemma AckImpliesStored(cfg: Config, actions: seq<Action>, s: State)
    requires Sound(cfg) && Exec(cfg, Init(), actions) == Some(s)
    ensures |s.calls| <= |s.h.returned|
    ensures forall i | 0 <= i < |s.calls| && s.calls[i].Ack? ::
              s.calls[i].tag == s.h.returned[i].tag && HasId(s.rows, s.h.returned[i].event.eventID)
    ensures forall m | m in s.broker.acked :: MessageStored(s.rows, s.broker.log, m)
  {
    Reachable(cfg, actions, s);
  }

  lemma PublishLogs(s: State, body: Body, accepted: bool, confirmed: bool, e: Event)
    requires confirmed ==> accepted
    ensures var t := AfterPublish(s, body, accepted, confirmed);
            e in t.h.confirmed ==> e in s.h.confirmed || Encoded(e) in t.broker.log
  {
    if accepted {
      assert AfterPublish(s, body, accepted, confirmed).broker.log[|s.broker.log|] == body;
    }
  }

  lemma {:induction false} ConfirmedIsLogged(cfg: Config, actions: seq<Action>, s: State, e: Event)
    requires Exec(cfg, Init(), actions) == Some(s) && e in s.h.confirmed
    ensures Encoded(e) in s.broker.log
  {
    if actions != [] {
      var init, a := actions[..|actions| - 1], actions[|actions| - 1];
      var p := Exec(cfg, Init(), init).value;
      if e in p.h.confirmed {
        ConfirmedIsLogged(cfg, init, p, e);
      }
      match a
      case World(w) =>
        WorldKeepsLog(cfg, p, w);
        if w.Publish? {
          PublishLogs(p, w.body, w.accepted, w.confirmed, e);
        }
      case Receiving(r) => ReceiverKeepsLog(cfg, p, r);
      case Looping(l) => LoopKeepsLog(cfg, p, l);
      case Exiting(x) => ExitKeepsLog(cfg, p, x);
      case InFlush(f) => FlushKeepsLog(cfg, p, f);
    }
  }

  /**
   No confirmed event is lost: whatever sequence of inserts that fail or commit unnoticed, failed
   settlements, lost connections, crashes and restarts has happened, its message is in the main
   queue, held unsettled, in the dead-letter queue, or it has a row in the store.
   */
  lemma NoConfirmedEventLost(cfg: Config, actions: seq<Action>, s: State, e: Event) returns (m: nat)
    requires Sound(cfg) && Exec(cfg, Init(), actions) == Some(s) && e in s.h.confirmed
    ensures m < |s.broker.log| && s.broker.log[m] == Encoded(e)
    ensures || m in s.broker.queue || m in s.broker.unsettled.Values || m in s.broker.dead
            || HasId(s.rows, e.eventID)
  {
    Reachable(cfg, actions, s);
    ConfirmedIsLogged(cfg, actions, s, e);
    m :| 0 <= m < |s.broker.log| && s.broker.log[m] == Encoded(e);
  }

  // ---------- order, conservation, settlement ----------

  /** Nothing Receive returned is repeated, reordered or missing, in any state of any run. */
  lemma DeliveriesConservedInOrder(cfg: Config, actions: seq<Action>, s: State)
    requires Sound(cfg) && Exec(cfg, Init(), actions) == Some(s)
    ensures s.h.returned ==
            Flatten(s.h.flushed) + s.batch + s.h.discarded + s.chan + Held(s.recv) + s.h.lost
    ensures |s.h.lost| <= 1
    ensures s.h.discarded != [] ==> s.batch == [] && !s.run.Selecting? && s.run != Returned(true)
    ensures forall i, j | 0 <= i < j < |s.h.returned| :: s.h.returned[i].tag < s.h.returned[j].tag
  {
    Reachable(cfg, actions, s);
  }

  /**
   No delivery is settled twice or in two ways: the calls follow the deliveries one by one, and
   their tags only go up. What was not called is, while connected, still unsettled at the broker.
   */
  lemma SettledAtMostOnce(cfg: Config, actions: seq<Action>, s: State)
    requires Sound(cfg) && Exec(cfg, Init(), actions) == Some(s)
    ensures |s.calls| <= |s.h.returned|
    ensures forall i | 0 <= i < |s.calls| :: s.calls[i].tag == s.h.returned[i].tag
    ensures forall i, j | 0 <= i < j < |s.calls| :: s.calls[i].tag < s.calls[j].tag
    ensures s.broker.connected ==>
              forall i | |s.calls| <= i < |s.h.returned| ::
                HoldsUnsettled(s.broker, s.h.returned[i].tag, Encoded(s.h.returned[i].event))
  {
    Reachable(cfg, actions, s);
  }

  /** When a flush is over, a settlement was attempted for every delivery of every batch flushed so far. */
  lemma FlushLeavesNothingBehind(cfg: Config, actions: seq<Action>, s: State)
    requires Sound(cfg) && Exec(cfg, Init(), actions) == Some(s) && !(s.run.Flushing? && !s.run.phase.Finished?)
    ensures |s.calls| == |Flatten(s.h.flushed)|
    ensures forall i | 0 <= i < |s.calls| :: s.calls[i].tag == Flatten(s.h.flushed)[i].tag
  {
    Reachable(cfg, actions, s);
  }

  // ---------- capacity ----------

  /** Batch, channel and held delivery never exceed the prefetch window. */
  lemma HandFitsPrefetch(cfg: Config, actions: seq<Action>, s: State)
    requires Sound(cfg) && Exec(cfg, Init(), actions) == Some(s)
    ensures |Rest(s.run)| + |s.batch| + |s.chan| + |Held(s.recv)| + |s.inbox| <= cfg.prefetch
  {
    Reachable(cfg, actions, s);
  }

  lemma NoBlockNoDrop(cfg: Config, s: State, r: ReceiverAction)
    requires ReceiverEnabled(cfg, s, r) && !s.recv.Blocked? && s.h.lost == []
    requires s.recv.Holding? ==> |s.chan| < cfg.batchSize
    ensures var t := AfterReceiver(cfg, s, r); !t.recv.Blocked? && t.h.lost == []
  {
    match r
    case CheckContext =>
    case NoticeCancel =>
    case TakeValid =>
    case TakePoison(_, _) =>
    case NoticeClosed =>
    case Offer =>
    case Block =>
    case Send =>
    case Drop =>
    case SendResult =>
    case CloseChannel =>
  }

  /** With prefetch at most the channel's capacity, the non-blocking send always finds room. */
  lemma {:induction false} NeverBlocked(cfg: Config, actions: seq<Action>, s: State)
    requires Sound(cfg) && Exec(cfg, Init(), actions) == Some(s) && cfg.prefetch <= cfg.batchSize
    ensures !s.recv.Blocked? && s.h.lost == []
    ensures s.recv.Holding? ==> |s.chan| < cfg.batchSize
  {
    HandFitsPrefetch(cfg, actions, s);
    if actions != [] {
      var init, a := actions[..|actions| - 1], actions[|actions| - 1];
      var p := Exec(cfg, Init(), init).value;
      NeverBlocked(cfg, init, p);
      match a
      case World(w) =>
        if !w.Restart? {
          WorldKeepsWorker(cfg, p, w);
          WorldKeepsHistory(cfg, p, w);
        }
      case Receiving(r) => NoBlockNoDrop(cfg, p, r);
      case Looping(l) => LoopKeepsReceiver(cfg, p, l);
      case Exiting(e) => ExitKeepsReceiver(cfg, p, e);
      case InFlush(f) => FlushKeepsReceiver(cfg, p, f);
    }
  }

  /** Every insert gets at least one event and at most a full batch, with distinct ids. */
  lemma InsertsAreBounded(cfg: Config, actions: seq<Action>, s: State, ok: bool, landed: seq<Event>)
    requires Sound(cfg) && Exec(cfg, Init(), actions) == Some(s) && cfg.prefetch <= cfg.batchSize
    requires FlushEnabled(cfg, s, Attempt(ok, landed))
    ensures var events := Dedup(s.run.batch);
            && 1 <= |events| <= cfg.batchSize
            && forall i, j | 0 <= i < j < |events| :: events[i].eventID != events[j].eventID
  {
    Reachable(cfg, actions, s);
    HandFitsPrefetch(cfg, actions, s);
    DedupKeepsIds(s.run.batch, NIL);
    var at := DedupKeepsFirstOccurrences(s.run.batch);
  }

  // ---------- graceful shutdown ----------

  /**
   If Run returns nil, every delivery that Receive returned was acked, without error, and has a
   row; the one exception is a delivery dropped by a send that lost against cancellation.
   */
  lemma NilMeansAckedAndStored(cfg: Config, actions: seq<Action>, s: State)
    requires Sound(cfg) && Exec(cfg, Init(), actions) == Some(s) && s.run == Returned(true)
    ensures |s.calls| + |s.h.lost| == |s.h.returned| && |s.h.lost| <= 1
    ensures forall i | 0 <= i < |s.calls| ::
              s.calls[i] == Ack(s.h.returned[i].tag, true) && HasId(s.rows, s.h.returned[i].event.eventID)
  {
    Reachable(cfg, actions, s);
  }

  /** Graceful shutdown loses nothing, because prefetch rules out the drop. */
  lemma GracefulShutdownLosesNothing(cfg: Config, actions: seq<Action>, s: State)
    requires Sound(cfg) && Exec(cfg, Init(), actions) == Some(s) && s.run == Returned(true)
    requires cfg.prefetch <= cfg.batchSize
    ensures |s.calls| == |s.h.returned|
    ensures forall i | 0 <= i < |s.h.returned| ::
              s.calls[i] == Ack(s.h.returned[i].tag, true) && HasId(s.rows, s.h.returned[i].event.eventID)
  {
    NilMeansAckedAndStored(cfg, actions, s);
    NeverBlocked(cfg, actions, s);
  }

  // ---------- validity ----------

  /** Everything Receive returns is well formed, and so is every row the worker stores. */
  ghost predicate OnlyValid(s: State) {
    && (forall i | 0 <= i < |s.h.returned| :: WellFormed(s.h.returned[i].event))
    && (forall i | 0 <= i < |s.rows| :: WellFormed(s.rows[i]))
  }

  lemma {:induction false} StoredRowsAreValid(cfg: Config, actions: seq<Action>, s: State)
    requires Sound(cfg) && Exec(cfg, Init(), actions) == Some(s)
    ensures OnlyValid(s)
  {
    if actions != [] {
      var init, a := actions[..|actions| - 1], actions[|actions| - 1];
      var p := Exec(cfg, Init(), init).value;
      StoredRowsAreValid(cfg, init, p);
      Reachable(cfg, init, p);
      match a
      case World(w) =>
        if !w.Restart? {
          WorldKeepsWorker(cfg, p, w);
          WorldKeepsHistory(cfg, p, w);
        }
      case Receiving(r) => ReturnsAreValid(cfg, p, r);
      case Looping(l) => LoopKeepsReceiver(cfg, p, l);
      case Exiting(e) => ExitKeepsReceiver(cfg, p, e);
      case InFlush(f) => InsertsAreValid(cfg, p, f);
    }
  }

  lemma ReturnsAreValid(cfg: Config, s: State, r: ReceiverAction)
    requires OnlyValid(s) && ReceiverEnabled(cfg, s, r)
    ensures OnlyValid(AfterReceiver(cfg, s, r))
  {
    ReceiverKeepsRun(cfg, s, r);
    ReceiverKeepsHistory(cfg, s, r);
    if r.TakeValid? {
      ValidateIffWellFormed(Accept(s.inbox[0].body).value);
    }
  }

  lemma InsertsAreValid(cfg: Config, s: State, f: FlushAction)
    requires OnlyValid(s) && Order(s) && FlushEnabled(cfg, s, f)
    ensures OnlyValid(AfterFlush(cfg, s, f))
  {
    FlushKeepsReceiver(cfg, s, f);
    if f.Attempt? {
      LandedRowsAreValid(s, f.ok, f.landed);
    }
  }

  lemma LandedRowsAreValid(s: State, ok: bool, landed: seq<Event>)
    requires OnlyValid(s) && Order(s) && s.run.Flushing? && s.run.phase.Inserting?
    requires Possible(RowsOf(Dedup(s.run.batch)), ok, landed)
    ensures forall i | 0 <= i < |landed| :: WellFormed(landed[i])
  {
    var batch := s.run.batch;
    var at := DedupKeepsFirstOccurrences(batch);
    forall i | 0 <= i < |landed| ensures WellFormed(landed[i]) {
      assert landed[i] in multiset(landed);
      assert landed[i] in multiset(RowsOf(Dedup(batch)));
      var j :| 0 <= j < |Dedup(batch)| && RowOf(Dedup(batch)[j]) == landed[i];
      assert s.h.returned[|s.h.done| + at[j]] == batch[at[j]];
    }
  }

  // ---------- duplicates ----------

  /** The number of batches that contain an event with this id. */
  function Times(batches: seq<seq<Delivery>>, id: UUID): nat {
    if batches == [] then 0
    else Times(batches[..|batches| - 1], id) + if BatchHasId(batches[|batches| - 1], id) then 1 else 0
  }

  lemma {:induction false} TimesConcat(a: seq<seq<Delivery>>, b: seq<seq<Delivery>>, id: UUID)
    ensures Times(a + b, id) == Times(a, id) + Times(b, id)
  {
    if b == [] {
      assert a + b == a;
    } else {
      TimesConcat(a, b[..|b| - 1], id);
      assert (a + b)[..|a + b| - 1] == a + b[..|b| - 1];
    }
  }

  /** The inserts the current flush may still make. */
  function AttemptsLeft(cfg: Config, run: Run): nat {
    if !run.Flushing? then 0
    else
      match run.phase
      case Inserting(k) => if k <= cfg.maxAttempts then cfg.maxAttempts + 1 - k else 0
      case Waiting(k, _) => if k <= cfg.maxAttempts then cfg.maxAttempts - k else 0
      case _ => 0
  }

  /** The rows with an id, and those the current flush may still add. */
  ghost function Used(cfg: Config, s: State, id: UUID): nat {
    CountId(s.rows, id) + if s.run.Flushing? && BatchHasId(s.run.batch, id) then AttemptsLeft(cfg, s.run) else 0
  }

  ghost function Budget(cfg: Config, past: seq<seq<Delivery>>, flushed: seq<seq<Delivery>>, id: UUID): int {
    cfg.maxAttempts * (Times(past, id) + Times(flushed, id))
  }

  ghost predicate Bounded(cfg: Config, s: State, id: UUID) {
    Used(cfg, s, id) <= Budget(cfg, s.h.past, s.h.flushed, id)
  }

  lemma BudgetGrows(cfg: Config, past: seq<seq<Delivery>>, flushed: seq<seq<Delivery>>, batch: seq<Delivery>, id: UUID)
    ensures Budget(cfg, past, flushed + [batch], id)
            == Budget(cfg, past, flushed, id) + if BatchHasId(batch, id) then cfg.maxAttempts else 0
  {
    assert (flushed + [batch])[..|flushed|] == flushed;
    var before := Times(past, id) + Times(flushed, id);
    assert cfg.maxAttempts * (before + 1) == cfg.maxAttempts * before + cfg.maxAttempts;
  }

  /** A step outside flush adds no row, and budgets one more flush if it begins one. */
  ghost predicate UsesNoMore(cfg: Config, s: State, t: State, id: UUID) {
    && t.h.past == s.h.past
    && if t.run.Flushing? then
         && t.h.flushed == s.h.flushed + [t.run.batch]
         && Used(cfg, t, id) <= Used(cfg, s, id) + if BatchHasId(t.run.batch, id) then cfg.maxAttempts else 0
       else t.h.flushed == s.h.flushed && Used(cfg, t, id) <= Used(cfg, s, id)
  }

  lemma LoopUses(cfg: Config, s: State, l: LoopAction, id: UUID)
    requires Sound(cfg) && LoopEnabled(cfg, s, l)
    ensures UsesNoMore(cfg, s, AfterLoop(cfg, s, l), id)
  {
    match l
    case TakeDelivery =>
    case FillBatch =>
    case SeeClosed =>
    case ReadResult =>
    case Expire =>
    case SeeDone =>
    case Stop(_, _) =>
    case StopLast(_, _) =>
  }

  lemma ExitUses(cfg: Config, s: State, e: ExitAction, id: UUID)
    requires Sound(cfg) && ExitEnabled(cfg, s, e)
    ensures UsesNoMore(cfg, s, AfterExit(cfg, s, e), id)
  {
    match e
    case CancelReceive =>
    case Drain =>
    case DrainEnd =>
    case Join =>
    case Unwind =>
    case Discard =>
    case DiscardEnd =>
    case UnwindJoin =>
  }

  /** What an insert may add comes off what the flush may still add. */
  lemma FlushUses(cfg: Config, s: State, f: FlushAction, id: UUID)
    requires FlushEnabled(cfg, s, f) && PhaseOk(cfg, s.run.batch, s.run.phase)
    ensures Used(cfg, AfterFlush(cfg, s, f), id) <= Used(cfg, s, id)
  {
    match f
    case Attempt(ok, landed) => AttemptUses(cfg, s, ok, landed, id);
    case WakeUp(_) =>
    case SettleNext(_, _) =>
    case FlushReturn =>
  }

  lemma AttemptUses(cfg: Config, s: State, ok: bool, landed: seq<Event>, id: UUID)
    requires CanFlush(cfg, s, Insert(ok, landed)) && PhaseOk(cfg, s.run.batch, s.run.phase)
    ensures Used(cfg, AfterAct(cfg, s, Insert(ok, landed)), id) <= Used(cfg, s, id)
  {
    InsertAddsAtMostOneRow(s.run.batch, ok, landed, id);
    CountIdConcat(s.rows, landed, id);
    assert s.run.phase.Inserting?;
  }

  lemma WorldBound(cfg: Config, s: State, w: WorldAction, id: UUID)
    requires Bounded(cfg, s, id) && WorldEnabled(cfg, s, w)
    ensures Bounded(cfg, AfterWorld(cfg, s, w), id)
  {
    if w.Restart? {
      TimesConcat(s.h.past, s.h.flushed, id);
    } else {
      WorldKeepsWorker(cfg, s, w);
      WorldKeepsHistory(cfg, s, w);
    }
  }

  lemma StepBound(cfg: Config, s: State, a: Action, id: UUID)
    requires Sound(cfg) && Inv(cfg, s) && Bounded(cfg, s, id) && Enabled(cfg, s, a)
    ensures Bounded(cfg, Next(cfg, s, a), id)
  {
    var t := Next(cfg, s, a);
    match a
    case World(w) => WorldBound(cfg, s, w, id);
    case Receiving(r) =>
      ReceiverKeepsRun(cfg, s, r);
      ReceiverKeepsHistory(cfg, s, r);
    case Looping(l) =>
      LoopUses(cfg, s, l, id);
      if t.run.Flushing? {
        BudgetGrows(cfg, s.h.past, s.h.flushed, t.run.batch, id);
      }
    case Exiting(e) =>
      ExitUses(cfg, s, e, id);
      if t.run.Flushing? {
        BudgetGrows(cfg, s.h.past, s.h.flushed, t.run.batch, id);
      }
    case InFlush(f) =>
      FlushUses(cfg, s, f, id);
      FlushKeepsReceiver(cfg, s, f);
      FlushKeepsLog(cfg, s, f);
  }

  lemma {:induction false} BoundedAlways(cfg: Config, actions: seq<Action>, s: State, id: UUID)
    requires Sound(cfg) && Exec(cfg, Init(), actions) == Some(s)
    ensures Bounded(cfg, s, id)
  {
    if actions != [] {
      var init, a := actions[..|actions| - 1], actions[|actions| - 1];
      var p := Exec(cfg, Init(), init).value;
      BoundedAlways(cfg, init, p, id);
      Reachable(cfg, init, p);
      StepBound(cfg, p, a, id);
    }
  }

  /**
   Duplicates are bounded: over all runs so far, the rows with one id are at most the insert
   attempts allowed per flush times the number of flushed batches that contained the id.
   */
  lemma DuplicatesAreBounded(cfg: Config, actions: seq<Action>, s: State, id: UUID)
    requires Sound(cfg) && Exec(cfg, Init(), actions) == Some(s)
    ensures CountId(s.rows, id) <= cfg.maxAttempts * Times(s.h.past + s.h.flushed, id)
  {
    BoundedAlways(cfg, actions, s, id);
    TimesConcat(s.h.past, s.h.flushed, id);
  }

  // ---------- timer ----------

  /** At every loop head the batch is short of full, and the timer arm is live exactly when it is not empty. */
  lemma TimerAtLoopHead(cfg: Config, actions: seq<Action>, s: State)
    requires Sound(cfg) && Exec(cfg, Init(), actions) == Some(s) && s.run.Selecting?
    ensures |s.batch| < cfg.batchSize
    ensures s.timerLive <==> s.batch != []
    ensures s.batch == [] ==> s.timer == Idle
    ensures s.batch != [] ==> !s.timer.Idle? && s.timer.deadline == s.firstAt + cfg.batchTimeout
  {
    Reachable(cfg, actions, s);
  }

  /** A delivery taken without filling the batch. */
  ghost predicate IsTake(a: Action) {
    a.Looping? && a.l.TakeDelivery?
  }

  ghost function Takes(actions: seq<Action>): nat {
    if actions == [] then 0 else Takes(actions[..|actions| - 1]) + if IsTake(actions[|actions| - 1]) then 1 else 0
  }

  ghost predicate WithinOneRun(actions: seq<Action>) {
    forall i | 0 <= i < |actions| && actions[i].World? :: !actions[i].w.Restart?
  }

  /** The batch being filled since state s, after a number of takes. */
  ghost predicate Filling(cfg: Config, s: State, takes: nat, t: State) {
    && |t.h.flushed| == |s.h.flushed| && !t.run.Flushing? && s.now <= t.now
    && |s.batch| + takes < cfg.batchSize
    && (t.run.Selecting? ==> |t.batch| == |s.batch| + takes && s.batch <= t.batch)
    && (t.run.Selecting? && s.batch != [] ==> t.firstAt == s.firstAt)
  }

  lemma LoopFills(cfg: Config, s: State, takes: nat, t: State, l: LoopAction)
    requires Sound(cfg) && Inv(cfg, t) && LoopEnabled(cfg, t, l) && Filling(cfg, s, takes, t)
    requires |AfterLoop(cfg, t, l).h.flushed| == |t.h.flushed|
    ensures Filling(cfg, s, takes + (if l.TakeDelivery? then 1 else 0), AfterLoop(cfg, t, l))
  {
    LoopCountsFlushes(cfg, t, l);
  }

  lemma FlushedOnlyGrows(cfg: Config, s: State, a: Action)
    requires Enabled(cfg, s, a) && WithinOneRun([a])
    ensures |s.h.flushed| <= |Next(cfg, s, a).h.flushed|
  {
    assert [a][0] == a;
    match a
    case World(w) => WorldKeepsHistory(cfg, s, w);
    case Receiving(r) => ReceiverKeepsHistory(cfg, s, r);
    case Looping(l) => LoopCountsFlushes(cfg, s, l);
    case Exiting(e) => ExitCountsFlushes(cfg, s, e);
    case InFlush(f) => FlushKeepsLog(cfg, s, f);
  }

  lemma StepFills(cfg: Config, s: State, takes: nat, t: State, a: Action)
    requires Sound(cfg) && Inv(cfg, t) && Enabled(cfg, t, a) && Filling(cfg, s, takes, t) && WithinOneRun([a])
    requires |Next(cfg, t, a).h.flushed| == |t.h.flushed|
    ensures Filling(cfg, s, takes + (if IsTake(a) then 1 else 0), Next(cfg, t, a))
  {
    assert [a][0] == a;
    match a
    case World(w) =>
      WorldKeepsHistory(cfg, t, w);
      WorldKeepsWorker(cfg, t, w);
      WorldKeepsBatch(cfg, t, w);
    case Receiving(r) =>
      ReceiverKeepsHistory(cfg, t, r);
      ReceiverKeepsRun(cfg, t, r);
      ReceiverKeepsTime(cfg, t, r);
    case Looping(l) => LoopFills(cfg, s, takes, t, l);
    case Exiting(e) => ExitCountsFlushes(cfg, t, e);
    case InFlush(f) => FlushKeepsReceiver(cfg, t, f);
  }

  /**
   From any loop head and until the next flush or return: no more deliveries are taken than fall
   short of a full batch, the batch only grows, and the time of its first delivery stands.
   */
  lemma {:induction false} OneBatch(cfg: Config, s: State, actions: seq<Action>, t: State)
    requires Sound(cfg) && Inv(cfg, s) && s.run.Selecting? && WithinOneRun(actions)
    requires Exec(cfg, s, actions) == Some(t) && |t.h.flushed| <= |s.h.flushed|
    ensures Filling(cfg, s, Takes(actions), t)
  {
    if actions != [] {
      var init, a := actions[..|actions| - 1], actions[|actions| - 1];
      var p := Exec(cfg, s, init).value;
      FlushedOnlyGrows(cfg, p, a);
      OneBatch(cfg, s, init, p);
      InvAlong(cfg, s, init, p);
      StepFills(cfg, s, Takes(init), p, a);
    }
  }

  /**
   A timer flush never comes early: if a batch's first delivery is taken in state s, and the timer
   arm fires for that batch in state t, then at least the batch timeout has passed in between.
   */
  lemma TimerFlushIsNotEarly(cfg: Config, s: State, actions: seq<Action>, t: State)
    requires Sound(cfg) && Inv(cfg, s) && s.batch == [] && CanTakeDelivery(cfg, s) && WithinOneRun(actions)
    requires Exec(cfg, AfterTakeDelivery(cfg, s), actions) == Some(t)
    requires |t.h.flushed| == |s.h.flushed| && CanExpire(t)
    ensures s.now + cfg.batchTimeout <= t.now
  {
    TakeDeliveryKeeps(cfg, s);
    OneBatch(cfg, AfterTakeDelivery(cfg, s), actions, t);
    InvAlong(cfg, AfterTakeDelivery(cfg, s), actions, t);
  }
}
