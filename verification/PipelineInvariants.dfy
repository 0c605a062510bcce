/** What every step of the pipeline keeps. */
module PipelineInvariants {
  import opened Common
  import opened Events
  import opened FlushMachine
  import opened Pipeline

  ghost predicate Sound(cfg: Config) {
    1 <= cfg.batchSize && 1 <= cfg.maxAttempts
  }

  // ---------- control ----------

  ghost predicate PhaseOk(cfg: Config, batch: seq<Delivery>, phase: Phase) {
    match phase
    case Inserting(k) => batch != [] && 1 <= k <= cfg.maxAttempts
    case Waiting(k, _) => batch != [] && 1 <= k < cfg.maxAttempts
    case Acking(i, _) => i < |batch|
    case Rejecting(i) => i < |batch|
    case Finished(_) => true
  }

  ghost predicate RunControl(cfg: Config, s: State) {
    match s.run
    case Selecting => !s.receiverDone && !s.recvCancelled
    case SawClosed => !s.receiverDone && !s.recvCancelled && ChannelDone(s)
    case Stopping(done) => s.receiverDone == done && !s.recvCancelled && (done ==> s.ctxDone)
    case Cancelling(_) => !s.receiverDone && !s.recvCancelled
    case Draining(_) => !s.receiverDone && s.recvCancelled
    case Joining(_) => !s.receiverDone && s.recvCancelled && ChannelDone(s)
    case Flushing(batch, phase, _, final) =>
      && s.batch == [] && PhaseOk(cfg, batch, phase)
      && if final.Some? then s.receiverDone else !s.receiverDone && !s.recvCancelled
    case Unwinding => !s.receiverDone && !s.recvCancelled && s.batch == []
    case Discarding => !s.receiverDone && s.recvCancelled && s.batch == []
    case UnwindJoining => !s.receiverDone && s.recvCancelled && s.batch == [] && ChannelDone(s)
    case Returned(ok) => s.receiverDone && (ok ==> s.batch == [])
  }

  /** The two goroutines, their two channels and the cancel flag agree on how far the run has got. */
  ghost predicate Control(cfg: Config, s: State) {
    && (s.chanClosed <==> s.recv.Gone?)
    && s.results + s.resultReads == (if s.recv.Closing? || s.recv.Gone? then 1 else 0)
    && s.resultReads == (if s.receiverDone then 1 else 0)
    && (s.receiverDone ==> ChannelDone(s))
    && |s.chan| <= cfg.batchSize
    && (s.h.lost != [] ==> s.recvCancelled && (s.recv.Failing? || s.recv.Closing? || s.recv.Gone?))
    && |s.h.lost| <= 1
    && (s.h.discarded != [] ==> s.run.Discarding? || s.run.UnwindJoining? || s.run == Returned(false))
    && (s.h.discarded != [] ==> s.batch == [])
    && RunControl(cfg, s)
  }

  // ---------- order-preserving conservation ----------

  /** The deliveries of the batch being flushed whose settlement has not been attempted. */
  function Rest(run: Run): seq<Delivery> {
    if !run.Flushing? then []
    else
      match run.phase
      case Inserting(_) => run.batch
      case Waiting(_, _) => run.batch
      case Acking(i, _) => if i <= |run.batch| then run.batch[i..] else []
      case Rejecting(i) => if i <= |run.batch| then run.batch[i..] else []
      case Finished(_) => []
  }

  function Held(recv: Receiver): seq<Delivery> {
    if recv.Holding? || recv.Blocked? then [recv.d] else []
  }

  /** Seven consecutive pieces make up the whole. */
  ghost predicate Pieces<T(!new)>(
    all: seq<T>, done: seq<T>, rest: seq<T>, batch: seq<T>, discarded: seq<T>, chan: seq<T>, held: seq<T>, lost: seq<T>)
  {
    all == done + rest + batch + discarded + chan + held + lost
  }

  /**
   What Receive returned is exactly, and in order: what was settled, the rest of the batch being
   flushed, the current batch, what the deferred drain discarded, the channel, the delivery the
   receiver holds, and the one it dropped.
   */
  ghost predicate Order(s: State) {
    && Pieces(s.h.returned, s.h.done, Rest(s.run), s.batch, s.h.discarded, s.chan, Held(s.recv), s.h.lost)
    && Flatten(s.h.flushed) == s.h.done + Rest(s.run)
    && (s.run.Flushing? ==> s.h.flushed != [] && s.h.flushed[|s.h.flushed| - 1] == s.run.batch)
  }

  // ---------- the timer ----------

  /**
   In the loop the batch is shorter than the batch size, the timer arm is live exactly when the
   batch is not empty, and the timer then belongs to this batch; outside, no tick is left over.
   */
  ghost predicate TimerOk(cfg: Config, s: State) {
    && (s.timer.Ticked? ==> s.timer.deadline <= s.now)
    && (s.run.Selecting? || s.run.SawClosed? ==>
          && |s.batch| < cfg.batchSize
          && (s.timerLive <==> s.batch != [])
          && if s.batch == [] then s.timer == Idle
             else !s.timer.Idle? && s.timer.deadline == s.firstAt + cfg.batchTimeout)
    && (s.run.Flushing? && s.run.final == None ==>
          s.timer == Idle && !s.timerLive && 1 <= |s.run.batch| <= cfg.batchSize)
  }

  // ---------- settlement calls ----------

  ghost predicate AllAcked(calls: seq<Call>) {
    forall i | 0 <= i < |calls| :: calls[i].Ack? && calls[i].ok
  }

  /** As long as Run may still succeed, every call was an ack that reported success. */
  ghost predicate Clean(s: State) {
    match s.run
    case Flushing(_, phase, _, _) =>
      (match phase
       case Inserting(_) => AllAcked(s.calls)
       case Waiting(_, _) => AllAcked(s.calls)
       case Acking(_, failed) => !failed ==> AllAcked(s.calls)
       case Rejecting(_) => true
       case Finished(ok) => ok ==> AllAcked(s.calls))
    case Unwinding => true
    case Discarding => true
    case UnwindJoining => true
    case Returned(ok) => ok ==> AllAcked(s.calls)
    case _ => AllAcked(s.calls)
  }

  /** The settlement calls, in order, are one for each delivery done with. */
  ghost predicate Calls(s: State) {
    && |s.calls| == |s.h.done|
    && (forall i | 0 <= i < |s.calls| :: s.calls[i].tag == s.h.done[i].tag)
    && (forall i | 0 <= i < |s.h.returned| :: s.h.returned[i].rejectable)
    && Clean(s)
  }

  // ---------- ack implies stored ----------

  ghost predicate MessageStored(rows: seq<Event>, log: seq<Body>, m: nat) {
    m < |log| && log[m].Encoded? && HasId(rows, log[m].event.eventID)
  }

  /** Whatever was acked, by a call or at the broker, has a row; a batch is acked only once it has them all. */
  ghost predicate Stored(s: State) {
    && (forall i | 0 <= i < |s.calls| && i < |s.h.done| && s.calls[i].Ack? ::
          HasId(s.rows, s.h.done[i].event.eventID))
    && (forall m | m in s.broker.acked :: MessageStored(s.rows, s.broker.log, m))
    && (s.run.Flushing? && s.run.phase.Acking? ==> AllStored(s.rows, s.run.batch))
  }

  // ---------- tags and messages ----------

  /** Deliveries reach the worker in the order of their tags. */
  ghost predicate Tags(s: State) {
    && (forall i, j | 0 <= i < j < |s.h.returned| :: s.h.returned[i].tag < s.h.returned[j].tag)
    && (forall i, j | 0 <= i < j < |s.inbox| :: s.inbox[i].tag < s.inbox[j].tag)
    && (forall i, j | 0 <= i < |s.h.returned| && 0 <= j < |s.inbox| :: s.h.returned[i].tag < s.inbox[j].tag)
    && (forall i | 0 <= i < |s.h.returned| :: s.h.returned[i].tag < s.broker.nextTag)
    && (forall i | 0 <= i < |s.inbox| :: s.inbox[i].tag < s.broker.nextTag)
    && (forall t | t in s.broker.unsettled :: t < s.broker.nextTag)
  }

  /** Every accepted message is in exactly one place. */
  ghost predicate Conserved(b: Broker) {
    && (forall m | m in b.queue :: m < |b.log|)
    && (forall t | t in b.unsettled :: b.unsettled[t] < |b.log|)
    && (forall m | m in b.acked :: m < |b.log|)
    && (forall m | m in b.dead :: m < |b.log|)
    && (forall m | 0 <= m < |b.log| :: m in b.queue || m in b.unsettled.Values || m in b.acked || m in b.dead)
    && b.queue !! b.acked && b.queue !! b.dead && b.acked !! b.dead
    && (forall t | t in b.unsettled ::
          b.unsettled[t] !in b.queue && b.unsettled[t] !in b.acked && b.unsettled[t] !in b.dead)
    && (forall t, u | t in b.unsettled && u in b.unsettled && t != u :: b.unsettled[t] != b.unsettled[u])
  }

  /** The broker holds this tag unsettled, for a message with this body. */
  ghost predicate HoldsUnsettled(b: Broker, tag: nat, body: Body) {
    tag in b.unsettled && b.unsettled[tag] < |b.log| && b.log[b.unsettled[tag]] == body
  }

  /**
   The deliveries not done with fit in the prefetch window, and while the connection lasts the
   broker holds each of them unsettled, with the event the worker has.
   */
  ghost predicate Window(cfg: Config, s: State) {
    && |s.h.done| <= |s.h.returned|
    && |s.h.returned| - |s.h.done| + |s.inbox| <= cfg.prefetch
    && (!s.broker.connected ==> s.broker.unsettled == map[])
    && (s.broker.connected ==>
          && (forall i | |s.h.done| <= i < |s.h.returned| ::
                HoldsUnsettled(s.broker, s.h.returned[i].tag, Encoded(s.h.returned[i].event)))
          && (forall i | 0 <= i < |s.inbox| :: HoldsUnsettled(s.broker, s.inbox[i].tag, s.inbox[i].body)))
  }

  // ---------- the invariant ----------

  ghost predicate Inv(cfg: Config, s: State) {
    && Control(cfg, s) && Order(s) && TimerOk(cfg, s) && Calls(s) && Stored(s)
    && Tags(s) && Conserved(s.broker) && Window(cfg, s)
  }

  lemma InitInv(cfg: Config)
    requires Sound(cfg)
    ensures Inv(cfg, Init())
  {
  }

  // ----- environment -----

  lemma PublishConserves(s: State, body: Body, accepted: bool, confirmed: bool)
    requires Conserved(s.broker)
    ensures Conserved(AfterPublish(s, body, accepted, confirmed).broker)
  {
  }

  lemma PublishKeepsMessages(cfg: Config, s: State, body: Body, accepted: bool, confirmed: bool)
    requires Stored(s) && Window(cfg, s)
    ensures var t := AfterPublish(s, body, accepted, confirmed); Stored(t) && Window(cfg, t)
  {
    var log := s.broker.log + [body];
    assert forall m | 0 <= m < |s.broker.log| :: log[m] == s.broker.log[m];
  }

  lemma PublishKeeps(cfg: Config, s: State, body: Body, accepted: bool, confirmed: bool)
    requires Inv(cfg, s)
    ensures Inv(cfg, AfterPublish(s, body, accepted, confirmed))
  {
    PublishConserves(s, body, accepted, confirmed);
    PublishKeepsMessages(cfg, s, body, accepted, confirmed);
    assert Control(cfg, AfterPublish(s, body, accepted, confirmed));
  }

  lemma CloseInboxKeeps(cfg: Config, s: State)
    requires Inv(cfg, s) && CanCloseInbox(s)
    ensures Inv(cfg, AfterCloseInbox(s))
  {
  }

  lemma ClockKeeps(cfg: Config, s: State, to: nat)
    requires Inv(cfg, s) && s.now <= to
    ensures Inv(cfg, s.(now := to))
  {
  }

  lemma CancelContextKeeps(cfg: Config, s: State)
    requires Inv(cfg, s)
    ensures Inv(cfg, s.(ctxDone := true))
  {
  }

  lemma FireTimerKeeps(cfg: Config, s: State)
    requires Inv(cfg, s) && CanFireTimer(s)
    ensures Inv(cfg, AfterFireTimer(s))
  {
  }

  lemma LoseConnectionKeeps(cfg: Config, s: State)
    requires Inv(cfg, s)
    ensures Inv(cfg, AfterLoseConnection(s))
  {
  }

  lemma RestartKeeps(cfg: Config, s: State)
    requires Sound(cfg) && Inv(cfg, s)
    ensures Inv(cfg, AfterRestart(s))
  {
  }

  /** While connected, the outstanding deliveries have different tags among the unsettled ones. */
  lemma OutstandingAreUnsettled(cfg: Config, s: State)
    requires Tags(s) && Window(cfg, s) && s.broker.connected
    ensures |s.h.returned| - |s.h.done| + |s.inbox| <= |s.broker.unsettled|
  {
    var tags := seq(|s.h.returned| - |s.h.done|, i requires 0 <= i < |s.h.returned| - |s.h.done| =>
      s.h.returned[|s.h.done| + i].tag) + seq(|s.inbox|, i requires 0 <= i < |s.inbox| => s.inbox[i].tag);
    assert forall i, j | 0 <= i < j < |tags| :: tags[i] < tags[j];
    AscendingFits(tags, s.broker.unsettled.Keys);
  }

  lemma {:induction false} AscendingFits(tags: seq<nat>, keys: set<nat>)
    requires forall i, j | 0 <= i < j < |tags| :: tags[i] < tags[j]
    requires forall i | 0 <= i < |tags| :: tags[i] in keys
    ensures |tags| <= |keys|
  {
    if tags != [] {
      var last := tags[|tags| - 1];
      AscendingFits(tags[..|tags| - 1], keys - {last});
    }
  }

  lemma PushConserves(cfg: Config, s: State, m: nat)
    requires Conserved(s.broker) && Tags(s) && CanPush(cfg, s, m)
    ensures Conserved(AfterPush(cfg, s, m).broker)
  {
    var b, c := s.broker, AfterPush(cfg, s, m).broker;
    assert c.unsettled[b.nextTag] == m;
    forall n | n in b.unsettled.Values ensures n in c.unsettled.Values {
      var t :| t in b.unsettled && b.unsettled[t] == n;
      assert c.unsettled[t] == n;
    }
  }

  lemma PushKeepsWindow(cfg: Config, s: State, m: nat)
    requires Tags(s) && Window(cfg, s) && CanPush(cfg, s, m)
    ensures Tags(AfterPush(cfg, s, m)) && Window(cfg, AfterPush(cfg, s, m))
  {
    OutstandingAreUnsettled(cfg, s);
  }

  lemma PushKeeps(cfg: Config, s: State, m: nat)
    requires Inv(cfg, s) && CanPush(cfg, s, m)
    ensures Inv(cfg, AfterPush(cfg, s, m))
  {
    PushConserves(cfg, s, m);
    PushKeepsWindow(cfg, s, m);
  }

  /** A settlement moves one message, and touches no other tag. */
  lemma ResolveConserves(b: Broker, tag: nat, ack: bool)
    requires Conserved(b)
    ensures Conserved(Resolve(b, tag, ack))
    ensures forall t, body | t != tag && HoldsUnsettled(b, t, body) :: HoldsUnsettled(Resolve(b, tag, ack), t, body)
  {
    if tag in b.unsettled {
      ResolveKeepsAll(b, tag, ack);
      if ack {
        assert Resolve(b, tag, ack).dead == b.dead;
      } else {
        assert Resolve(b, tag, ack).acked == b.acked;
      }
    }
  }

  lemma ResolveKeepsAll(b: Broker, tag: nat, ack: bool)
    requires tag in b.unsettled
    ensures var c := Resolve(b, tag, ack);
            forall m | m in b.unsettled.Values :: m in c.unsettled.Values || m in c.acked || m in c.dead
  {
    var c := Resolve(b, tag, ack);
    forall m | m in b.unsettled.Values ensures m in c.unsettled.Values || m in c.acked || m in c.dead {
      var t :| t in b.unsettled && b.unsettled[t] == m;
      if t != tag {
        assert c.unsettled[t] == m;
      }
    }
  }

  // ----- receiver -----

  lemma CheckContextKeeps(cfg: Config, s: State)
    requires Inv(cfg, s) && s.recv.AtHead?
    ensures Inv(cfg, AfterCheckContext(s))
  {
  }

  lemma ReceiveFailsKeeps(cfg: Config, s: State)
    requires Inv(cfg, s) && s.recv.Awaiting?
    ensures Inv(cfg, s.(recv := Failing))
  {
  }

  lemma ReturnKeeps(cfg: Config, s: State, d: Delivery)
    requires Inv(cfg, s) && CanTakeParcel(s) && d.tag == s.inbox[0].tag && d.rejectable
    requires s.inbox[0].body == Encoded(d.event)
    ensures Inv(cfg, AfterReturn(s, d))
  {
  }

  lemma PoisonKeeps(cfg: Config, s: State, settles: bool, ok: bool)
    requires Inv(cfg, s) && CanTakeParcel(s)
    ensures Inv(cfg, AfterTakePoison(s, settles, ok))
  {
    PoisonKeepsWindow(cfg, s, settles, ok);
  }

  lemma PoisonKeepsWindow(cfg: Config, s: State, settles: bool, ok: bool)
    requires Inv(cfg, s) && CanTakeParcel(s)
    ensures var t := AfterTakePoison(s, settles, ok); Conserved(t.broker) && Window(cfg, t) && Tags(t) && Stored(t)
  {
    if settles {
      ResolveConserves(s.broker, s.inbox[0].tag, false);
    }
  }

  lemma BlockKeeps(cfg: Config, s: State)
    requires Inv(cfg, s) && CanBlock(cfg, s)
    ensures Inv(cfg, AfterBlock(s))
  {
  }

  lemma SendKeeps(cfg: Config, s: State)
    requires Inv(cfg, s) && (CanOffer(cfg, s) || CanSend(cfg, s))
    ensures Inv(cfg, AfterSend(s))
  {
  }

  lemma DropKeeps(cfg: Config, s: State)
    requires Inv(cfg, s) && CanDrop(s)
    ensures Inv(cfg, AfterDrop(s))
  {
  }

  lemma SendResultKeeps(cfg: Config, s: State)
    requires Inv(cfg, s) && CanSendResult(s)
    ensures Inv(cfg, AfterSendResult(s))
  {
  }

  lemma CloseChannelKeeps(cfg: Config, s: State)
    requires Inv(cfg, s) && s.recv.Closing?
    ensures Inv(cfg, AfterCloseChannel(s))
  {
  }

  // ----- Run -----

  lemma BeginFlushKeepsOrder(cfg: Config, s: State, batch: seq<Delivery>, final: Option<bool>)
    requires !s.run.Flushing? && s.h.discarded == [] && batch == s.batch
    requires Order(s)
    ensures Order(BeginFlush(cfg, s, batch, final))
  {
    FlattenSnoc(s.h.flushed, batch);
  }

  /** The oldest delivery in the channel joins the batch. */
  lemma MoveHead<T(!new)>(
    all: seq<T>, done: seq<T>, rest: seq<T>, batch: seq<T>, discarded: seq<T>, chan: seq<T>, held: seq<T>, lost: seq<T>)
    requires Pieces(all, done, rest, batch, discarded, chan, held, lost) && chan != [] && discarded == []
    ensures Pieces(all, done, rest, batch + [chan[0]], discarded, chan[1..], held, lost)
    ensures rest == [] ==> Pieces(all, done, batch + [chan[0]], [], discarded, chan[1..], held, lost)
  {
    assert chan == [chan[0]] + chan[1..];
  }

  /** The oldest unsettled delivery of a flush is settled. */
  lemma MoveDone<T(!new)>(
    all: seq<T>, done: seq<T>, rest: seq<T>, batch: seq<T>, discarded: seq<T>, chan: seq<T>, held: seq<T>, lost: seq<T>)
    requires Pieces(all, done, rest, batch, discarded, chan, held, lost) && rest != []
    ensures Pieces(all, done + [rest[0]], rest[1..], batch, discarded, chan, held, lost)
    ensures |done| < |all| && all[|done|] == rest[0]
  {
    assert rest == [rest[0]] + rest[1..];
  }

  lemma DrainKeepsOrder(s: State, t: State)
    requires Order(s) && !s.run.Flushing? && s.h.discarded == [] && s.chan != []
    requires t == s.(batch := s.batch + [s.chan[0]], chan := s.chan[1..])
    ensures Order(t)
  {
    MoveHead(s.h.returned, s.h.done, Rest(s.run), s.batch, s.h.discarded, s.chan, Held(s.recv), s.h.lost);
  }

  lemma TakeDeliveryKeeps(cfg: Config, s: State)
    requires Sound(cfg) && Inv(cfg, s) && CanTakeDelivery(cfg, s)
    ensures Inv(cfg, AfterTakeDelivery(cfg, s))
  {
    DrainKeepsOrder(s, s.(batch := s.batch + [s.chan[0]], chan := s.chan[1..]));
  }

  lemma FillBatchKeepsOrder(cfg: Config, s: State)
    requires Control(cfg, s) && Order(s) && CanFillBatch(cfg, s)
    ensures Order(AfterFillBatch(cfg, s))
  {
    var batch := s.batch + [s.chan[0]];
    var t := s.(batch := batch, chan := s.chan[1..]);
    DrainKeepsOrder(s, t);
    BeginFlushKeepsOrder(cfg, t, batch, None);
  }

  lemma FillBatchKeeps(cfg: Config, s: State)
    requires Sound(cfg) && Inv(cfg, s) && CanFillBatch(cfg, s)
    ensures Inv(cfg, AfterFillBatch(cfg, s))
  {
    FillBatchKeepsOrder(cfg, s);
  }

  lemma ExpireKeeps(cfg: Config, s: State)
    requires Sound(cfg) && Inv(cfg, s) && CanExpire(s)
    ensures Inv(cfg, AfterExpire(cfg, s))
  {
    BeginFlushKeepsOrder(cfg, s, s.batch, None);
  }

  lemma SeeClosedKeeps(cfg: Config, s: State)
    requires Inv(cfg, s) && s.run.Selecting? && ChannelDone(s)
    ensures Inv(cfg, s.(run := SawClosed))
  {
  }

  lemma SeeDoneKeeps(cfg: Config, s: State)
    requires Inv(cfg, s) && s.run.Selecting?
    ensures Inv(cfg, s.(run := Stopping(false)))
  {
  }

  lemma ReadResultKeeps(cfg: Config, s: State)
    requires Inv(cfg, s) && CanReadResult(s)
    ensures Inv(cfg, AfterReadResult(s))
  {
  }

  lemma StopKeeps(cfg: Config, s: State, ok: bool, cancels: bool)
    requires Inv(cfg, s) && CanStop(s, ok, cancels) && !s.run.done
    ensures Inv(cfg, AfterStop(s, ok, cancels))
  {
  }

  lemma StopLastKeeps(cfg: Config, s: State, ok: bool, cancels: bool)
    requires Sound(cfg) && Inv(cfg, s) && CanStop(s, ok, cancels) && s.run.done
    ensures Inv(cfg, AfterStopLast(cfg, s, ok, cancels))
  {
    UnsubscribeKeeps(cfg, s, cancels);
    LastFlushKeeps(cfg, s.(broker := Unsubscribe(s.broker, cancels)), ok);
  }

  lemma UnsubscribeKeeps(cfg: Config, s: State, cancels: bool)
    requires Inv(cfg, s)
    ensures Inv(cfg, s.(broker := Unsubscribe(s.broker, cancels)))
  {
  }

  lemma LastFlushKeeps(cfg: Config, s: State, ok: bool)
    requires Sound(cfg) && Inv(cfg, s) && s.run.Stopping? && s.run.done
    ensures Inv(cfg, BeginFlush(cfg, s, s.batch, Some(ok)))
  {
    BeginFlushKeepsOrder(cfg, s, s.batch, Some(ok));
  }

  lemma CancelReceiveKeeps(cfg: Config, s: State)
    requires Inv(cfg, s) && s.run.Cancelling?
    ensures Inv(cfg, AfterCancelReceive(s))
  {
  }

  lemma DrainKeeps(cfg: Config, s: State)
    requires Inv(cfg, s) && CanDrain(s)
    ensures Inv(cfg, AfterDrain(s))
  {
    DrainKeepsOrder(s, AfterDrain(s));
  }

  lemma DrainEndKeeps(cfg: Config, s: State)
    requires Inv(cfg, s) && CanDrainEnd(s)
    ensures Inv(cfg, AfterDrainEnd(s))
  {
  }

  lemma JoinKeeps(cfg: Config, s: State)
    requires Sound(cfg) && Inv(cfg, s) && CanJoin(s)
    ensures Inv(cfg, AfterJoin(cfg, s))
  {
    BeginFlushKeepsOrder(cfg, s, s.batch, Some(s.run.stopOk));
  }

  lemma RowsOnlyGrow(rows: seq<Event>, landed: seq<Event>)
    ensures forall id | HasId(rows, id) :: HasId(rows + landed, id)
  {
    forall id | HasId(rows, id) ensures HasId(rows + landed, id) {
      HasIdConcat(rows, landed, id);
    }
  }

  lemma AttemptStores(cfg: Config, s: State, ok: bool, landed: seq<Event>)
    requires Stored(s) && CanFlush(cfg, s, Insert(ok, landed))
    ensures Stored(AfterAct(cfg, s, Insert(ok, landed)))
  {
    RowsOnlyGrow(s.rows, landed);
    if ok {
      forall i | 0 <= i < |s.run.batch| ensures HasId(s.rows + landed, s.run.batch[i].event.eventID) {
        var id := s.run.batch[i].event.eventID;
        assert BatchHasId(s.run.batch, id);
        InsertAddsAtMostOneRow(s.run.batch, ok, landed, id);
        HasIdConcat(s.rows, landed, id);
      }
    }
  }

  lemma AttemptKeeps(cfg: Config, s: State, ok: bool, landed: seq<Event>)
    requires Inv(cfg, s) && CanFlush(cfg, s, Insert(ok, landed))
    ensures Inv(cfg, AfterAct(cfg, s, Insert(ok, landed)))
  {
    AttemptStores(cfg, s, ok, landed);
    assert s.run.batch[0..] == s.run.batch;
  }

  lemma WakeUpKeeps(cfg: Config, s: State, at: nat)
    requires Inv(cfg, s) && CanFlush(cfg, s, Wake(at))
    ensures Inv(cfg, AfterAct(cfg, s, Wake(at)))
  {
  }

  lemma SettleShortensRest(cfg: Config, s: State, ok: bool, settles: bool)
    requires CanSettle(cfg, s, ok)
    ensures var t := AfterSettle(cfg, s, ok, settles);
            && Rest(s.run) != [] && Rest(s.run)[0] == s.run.batch[s.run.phase.next]
            && t.h == s.h.(done := s.h.done + [Rest(s.run)[0]]) && Rest(t.run) == Rest(s.run)[1..]
  {
    assert s.run.batch[s.run.phase.next..][1..] == s.run.batch[s.run.phase.next + 1..];
  }

  lemma SettleKeepsOrder(cfg: Config, s: State, ok: bool, settles: bool)
    requires Order(s) && CanSettle(cfg, s, ok)
    ensures Order(AfterSettle(cfg, s, ok, settles))
    ensures |s.h.done| < |s.h.returned| && s.h.returned[|s.h.done|] == s.run.batch[s.run.phase.next]
  {
    var t := AfterSettle(cfg, s, ok, settles);
    SettleShortensRest(cfg, s, ok, settles);
    MoveDone(s.h.returned, s.h.done, Rest(s.run), s.batch, s.h.discarded, s.chan, Held(s.recv), s.h.lost);
    var rest := Rest(s.run);
    assert s.h.done + rest == s.h.done + [rest[0]] + rest[1..];
  }

  lemma SettleKeepsCalls(cfg: Config, s: State, ok: bool, settles: bool)
    requires Calls(s) && CanSettle(cfg, s, ok)
    ensures Calls(AfterSettle(cfg, s, ok, settles))
  {
  }

  lemma SettleKeepsStored(cfg: Config, s: State, ok: bool, settles: bool)
    requires Stored(s) && CanSettle(cfg, s, ok) && |s.calls| == |s.h.done|
    requires var tag := s.run.batch[s.run.phase.next].tag;
             settles && s.run.phase.Acking? && tag in s.broker.unsettled ==>
               MessageStored(s.rows, s.broker.log, s.broker.unsettled[tag])
    ensures Stored(AfterSettle(cfg, s, ok, settles))
  {
  }

  /** The message behind the delivery about to be acked has its row. */
  lemma SettledMessageIsStored(cfg: Config, s: State, ok: bool)
    requires Inv(cfg, s) && CanSettle(cfg, s, ok) && s.run.phase.Acking?
    requires |s.h.done| < |s.h.returned| && s.h.returned[|s.h.done|] == s.run.batch[s.run.phase.next]
    requires s.run.batch[s.run.phase.next].tag in s.broker.unsettled
    ensures MessageStored(s.rows, s.broker.log, s.broker.unsettled[s.run.batch[s.run.phase.next].tag])
  {
  }

  lemma SettleKeepsWindow(cfg: Config, s: State, ok: bool, settles: bool)
    requires Inv(cfg, s) && CanSettle(cfg, s, ok)
    ensures var t := AfterSettle(cfg, s, ok, settles); Conserved(t.broker) && Window(cfg, t) && Tags(t)
  {
    SettleKeepsOrder(cfg, s, ok, settles);
    ResolveConserves(s.broker, s.run.batch[s.run.phase.next].tag, s.run.phase.Acking?);
  }

  lemma SettleKeeps(cfg: Config, s: State, ok: bool, settles: bool)
    requires Inv(cfg, s) && CanSettle(cfg, s, ok)
    ensures Inv(cfg, AfterSettle(cfg, s, ok, settles))
  {
    SettleKeepsOrder(cfg, s, ok, settles);
    SettleKeepsCalls(cfg, s, ok, settles);
    if s.run.phase.Acking? && s.run.batch[s.run.phase.next].tag in s.broker.unsettled {
      SettledMessageIsStored(cfg, s, ok);
    }
    SettleKeepsStored(cfg, s, ok, settles);
    SettleKeepsWindow(cfg, s, ok, settles);
  }

  lemma FlushReturnKeeps(cfg: Config, s: State)
    requires Inv(cfg, s) && CanFlushReturn(s)
    ensures Inv(cfg, AfterFlushReturn(s))
  {
  }

  lemma UnwindKeeps(cfg: Config, s: State)
    requires Inv(cfg, s) && s.run.Unwinding?
    ensures Inv(cfg, AfterUnwind(s))
  {
  }

  lemma DiscardKeeps(cfg: Config, s: State)
    requires Inv(cfg, s) && CanDiscard(s)
    ensures Inv(cfg, AfterDiscard(s))
  {
    assert s.chan == [s.chan[0]] + s.chan[1..];
  }

  lemma DiscardEndKeeps(cfg: Config, s: State)
    requires Inv(cfg, s) && s.run.Discarding? && ChannelDone(s)
    ensures Inv(cfg, s.(run := UnwindJoining))
  {
  }

  lemma UnwindJoinKeeps(cfg: Config, s: State)
    requires Inv(cfg, s) && CanUnwindJoin(s)
    ensures Inv(cfg, AfterUnwindJoin(s))
  {
  }

  // ----- any step -----

  lemma TakeValidKeeps(cfg: Config, s: State)
    requires Inv(cfg, s) && CanTakeValid(s)
    ensures Inv(cfg, AfterTakeValid(s))
  {
    ReturnKeeps(cfg, s, Delivery(s.inbox[0].tag, Accept(s.inbox[0].body).value, true));
  }

  lemma WorldKeepsInv(cfg: Config, s: State, w: WorldAction)
    requires Sound(cfg) && Inv(cfg, s) && WorldEnabled(cfg, s, w)
    ensures Inv(cfg, AfterWorld(cfg, s, w))
  {
    match w
    case Publish(body, accepted, confirmed) => PublishKeeps(cfg, s, body, accepted, confirmed);
    case Push(m) => PushKeeps(cfg, s, m);
    case LoseConnection => LoseConnectionKeeps(cfg, s);
    case CloseInbox => CloseInboxKeeps(cfg, s);
    case CancelContext => CancelContextKeeps(cfg, s);
    case PassTime(to) => ClockKeeps(cfg, s, to);
    case FireTimer => FireTimerKeeps(cfg, s);
    case Restart => RestartKeeps(cfg, s);
  }

  lemma ReceiverKeepsInv(cfg: Config, s: State, r: ReceiverAction)
    requires Sound(cfg) && Inv(cfg, s) && ReceiverEnabled(cfg, s, r)
    ensures Inv(cfg, AfterReceiver(cfg, s, r))
  {
    match r
    case CheckContext => CheckContextKeeps(cfg, s);
    case NoticeCancel => ReceiveFailsKeeps(cfg, s);
    case TakeValid => TakeValidKeeps(cfg, s);
    case TakePoison(settles, ok) => PoisonKeeps(cfg, s, settles, ok);
    case NoticeClosed => ReceiveFailsKeeps(cfg, s);
    case Offer => SendKeeps(cfg, s);
    case Block => BlockKeeps(cfg, s);
    case Send => SendKeeps(cfg, s);
    case Drop => DropKeeps(cfg, s);
    case SendResult => SendResultKeeps(cfg, s);
    case CloseChannel => CloseChannelKeeps(cfg, s);
  }

  lemma LoopKeepsInv(cfg: Config, s: State, l: LoopAction)
    requires Sound(cfg) && Inv(cfg, s) && LoopEnabled(cfg, s, l)
    ensures Inv(cfg, AfterLoop(cfg, s, l))
  {
    if l.TakeDelivery? {
      TakeDeliveryKeeps(cfg, s);
    } else if l.ReadResult? {
      ReadResultKeeps(cfg, s);
    } else if l.FillBatch? || l.Expire? || l.StopLast? {
      NewFlushKeepsInv(cfg, s, l);
    } else {
      LeavingKeepsInv(cfg, s, l);
    }
  }

  lemma LeavingKeepsInv(cfg: Config, s: State, l: LoopAction)
    requires Inv(cfg, s) && LoopEnabled(cfg, s, l) && (l.SeeClosed? || l.SeeDone? || l.Stop?)
    ensures Inv(cfg, AfterLoop(cfg, s, l))
  {
    match l
    case SeeClosed => SeeClosedKeeps(cfg, s);
    case SeeDone => SeeDoneKeeps(cfg, s);
    case Stop(ok, cancels) => StopKeeps(cfg, s, ok, cancels);
  }

  lemma NewFlushKeepsInv(cfg: Config, s: State, l: LoopAction)
    requires Sound(cfg) && Inv(cfg, s) && LoopEnabled(cfg, s, l) && (l.FillBatch? || l.Expire? || l.StopLast?)
    ensures Inv(cfg, AfterLoop(cfg, s, l))
  {
    match l
    case FillBatch => FillBatchKeeps(cfg, s);
    case Expire => ExpireKeeps(cfg, s);
    case StopLast(ok, cancels) => StopLastKeeps(cfg, s, ok, cancels);
  }

  lemma ExitKeepsInv(cfg: Config, s: State, e: ExitAction)
    requires Sound(cfg) && Inv(cfg, s) && ExitEnabled(cfg, s, e)
    ensures Inv(cfg, AfterExit(cfg, s, e))
  {
    match e
    case CancelReceive => CancelReceiveKeeps(cfg, s);
    case Drain => DrainKeeps(cfg, s);
    case DrainEnd => DrainEndKeeps(cfg, s);
    case Join => JoinKeeps(cfg, s);
    case Unwind => UnwindKeeps(cfg, s);
    case Discard => DiscardKeeps(cfg, s);
    case DiscardEnd => DiscardEndKeeps(cfg, s);
    case UnwindJoin => UnwindJoinKeeps(cfg, s);
  }

  lemma FlushKeepsInv(cfg: Config, s: State, f: FlushAction)
    requires Sound(cfg) && Inv(cfg, s) && FlushEnabled(cfg, s, f)
    ensures Inv(cfg, AfterFlush(cfg, s, f))
  {
    match f
    case Attempt(ok, landed) => AttemptKeeps(cfg, s, ok, landed);
    case WakeUp(at) => WakeUpKeeps(cfg, s, at);
    case SettleNext(ok, settles) => SettleKeeps(cfg, s, ok, settles);
    case FlushReturn => FlushReturnKeeps(cfg, s);
  }

  lemma InvStep(cfg: Config, s: State, a: Action)
    requires Sound(cfg) && Inv(cfg, s) && Enabled(cfg, s, a)
    ensures Inv(cfg, Next(cfg, s, a))
  {
    match a
    case World(w) => WorldKeepsInv(cfg, s, w);
    case Receiving(r) => ReceiverKeepsInv(cfg, s, r);
    case Looping(l) => LoopKeepsInv(cfg, s, l);
    case Exiting(e) => ExitKeepsInv(cfg, s, e);
    case InFlush(f) => FlushKeepsInv(cfg, s, f);
  }

  /** A state with the invariant leads only to states with it. */
  lemma {:induction false} InvAlong(cfg: Config, s: State, actions: seq<Action>, t: State)
    requires Sound(cfg) && Inv(cfg, s) && Exec(cfg, s, actions) == Some(t)
    ensures Inv(cfg, t)
  {
    if actions != [] {
      var init, a := actions[..|actions| - 1], actions[|actions| - 1];
      var p := Exec(cfg, s, init).value;
      InvAlong(cfg, s, init, p);
      InvStep(cfg, p, a);
    }
  }

  /** The invariant holds in every state that any list of actions can reach. */
  lemma Reachable(cfg: Config, actions: seq<Action>, s: State)
    requires Sound(cfg) && Exec(cfg, Init(), actions) == Some(s)
    ensures Inv(cfg, s)
  {
    InitInv(cfg);
    InvAlong(cfg, Init(), actions, s);
  }
}
