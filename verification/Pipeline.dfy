/**
 The worker as a concurrent system: the receiver goroutine, the bounded channel, the Run loop with
 its timer and its shutdown paths, the broker and its client library, the store, and a clock.
 One action is one step of one of them; its fields are the choices the environment makes. Run's
 flushes are steps of the flush machine.

 The broker follows AMQP 0-9-1, section 3.1.7 (quality of service: at most `prefetch` deliveries
 unsettled) and section 3.1.8 (acknowledgements: what is unsettled when a channel closes returns to
 the queue). Routing a rejected message to a dead-letter queue is a RabbitMQ extension.
 */
module Pipeline {
  import opened Common
  import opened Events
  import opened FlushMachine

  /** A delivery as the client library holds it: a tag and undecoded bytes. */
  datatype Parcel = Parcel(tag: nat, body: Body)

  /** Messages are known by their position in the log of everything the broker accepted. */
  datatype Broker = Broker(
    log: seq<Body>,
    queue: set<nat>,             // in the main queue
    unsettled: map<nat, nat>,    // delivered on the current channel and not settled: tag to message
    acked: set<nat>,
    dead: set<nat>,              // in the dead-letter queue
    nextTag: nat,
    connected: bool,
    subscribed: bool)

  datatype Receiver =
    | AtHead                   // head of Receive's loop, before the context check
    | Awaiting                 // at the select inside Receive
    | Holding(d: Delivery)     // Receive returned it; about to try the non-blocking send
    | Blocked(d: Delivery)     // at the second select of receive
    | Failing                  // about to put an error in the result channel
    | Closing                  // result sent; about to close the delivery channel
    | Gone

  datatype Run =
    | Selecting
    | SawClosed                                  // the channel was closed; about to read the result
    | Stopping(done: bool)                       // about to call Stop; done: the receiver has finished
    | Cancelling(stopOk: bool)
    | Draining(stopOk: bool)
    | Joining(stopOk: bool)                      // channel closed; about to read the result
    | Flushing(batch: seq<Delivery>, phase: Phase, slept: nat, final: Option<bool>)
    | Unwinding                                  // returning an error; the deferred function begins
    | Discarding
    | UnwindJoining
    | Returned(ok: bool)

  datatype Timer = Idle | Armed(deadline: nat) | Ticked(deadline: nat)

  /** What happened so far, kept to state properties; no step depends on it. */
  datatype History = History(
    returned: seq<Delivery>,        // everything Receive returned, in order
    done: seq<Delivery>,            // those whose settlement was attempted, in order
    discarded: seq<Delivery>,       // those thrown away by the deferred drain
    lost: seq<Delivery>,            // the one dropped by a send that lost against cancellation
    flushed: seq<seq<Delivery>>,    // the batches given to flush, in order
    past: seq<seq<Delivery>>,       // the batches flushed by earlier runs
    confirmed: set<Event>)          // events whose Publish returned nil

  datatype State = State(
    broker: Broker, inbox: seq<Parcel>, inboxClosed: bool,
    recv: Receiver, chan: seq<Delivery>, chanClosed: bool, results: nat, resultReads: nat,
    run: Run, batch: seq<Delivery>, receiverDone: bool,
    timer: Timer, timerLive: bool, now: nat, firstAt: nat,
    ctxDone: bool, recvCancelled: bool,
    rows: seq<Event>, calls: seq<Call>,
    h: History)

  /** Steps of the environment: publishers, the broker and its client library, the clock, the operating system. */
  datatype WorldAction =
    | Publish(body: Body, accepted: bool, confirmed: bool)
    | Push(m: nat)
    | LoseConnection
    | CloseInbox
    | CancelContext
    | PassTime(to: nat)
    | FireTimer
    | Restart

  /** Steps of the receiver goroutine, inside Receive and around it. */
  datatype ReceiverAction =
    | CheckContext
    | NoticeCancel
    | TakeValid
    | TakePoison(settles: bool, ok: bool)
    | NoticeClosed
    | Offer
    | Block
    | Send
    | Drop
    | SendResult
    | CloseChannel

  /** Steps of the Run goroutine in its loop, up to the call of Stop. */
  datatype LoopAction =
    | TakeDelivery
    | FillBatch
    | SeeClosed
    | ReadResult
    | Expire
    | SeeDone
    | Stop(ok: bool, cancels: bool)
    | StopLast(ok: bool, cancels: bool)

  /** Steps of the Run goroutine that end it: the shutdown drain and the deferred function. */
  datatype ExitAction =
    | CancelReceive
    | Drain
    | DrainEnd
    | Join
    | Unwind
    | Discard
    | DiscardEnd
    | UnwindJoin

  /** Steps of the Run goroutine inside flush. */
  datatype FlushAction =
    | Attempt(ok: bool, landed: seq<Event>)
    | WakeUp(at: nat)
    | SettleNext(ok: bool, settles: bool)
    | FlushReturn

  datatype Action =
    | World(w: WorldAction)
    | Receiving(r: ReceiverAction)
    | Looping(l: LoopAction)
    | Exiting(e: ExitAction)
    | InFlush(f: FlushAction)

  // ---------- broker operations ----------

  function Resolve(b: Broker, tag: nat, ack: bool): Broker {
    if tag !in b.unsettled then b
    else if ack then b.(unsettled := b.unsettled - {tag}, acked := b.acked + {b.unsettled[tag]})
    else b.(unsettled := b.unsettled - {tag}, dead := b.dead + {b.unsettled[tag]})
  }

  /** A channel closes, by a lost connection or at the end of a process: whatever it had not settled returns to the queue. */
  function Requeue(b: Broker, connected: bool): Broker {
    Broker(b.log, b.queue + b.unsettled.Values, map[], b.acked, b.dead, b.nextTag, connected, connected)
  }

  function Unsubscribe(b: Broker, cancels: bool): Broker {
    b.(subscribed := b.subscribed && !cancels)
  }

  function Deliver(b: Broker, m: nat): Broker {
    b.(queue := b.queue - {m}, unsettled := b.unsettled[b.nextTag := m], nextTag := b.nextTag + 1)
  }

  function Enqueue(b: Broker, body: Body): Broker {
    b.(log := b.log + [body], queue := b.queue + {|b.log|})
  }

  // ---------- history ----------

  function Confirm(h: History, body: Body, confirmed: bool): History {
    if confirmed && body.Encoded? then h.(confirmed := h.confirmed + {body.event}) else h
  }

  function NoteReturned(h: History, d: Delivery): History {
    h.(returned := h.returned + [d])
  }

  function NoteLost(h: History, d: Delivery): History {
    h.(lost := h.lost + [d])
  }

  function NoteFlushed(h: History, batch: seq<Delivery>): History {
    h.(flushed := h.flushed + [batch])
  }

  function NoteDone(h: History, d: Delivery): History {
    h.(done := h.done + [d])
  }

  function NoteDiscarded(h: History, d: Delivery): History {
    h.(discarded := h.discarded + [d])
  }

  // ---------- initial states ----------

  function Launch(b: Broker, rows: seq<Event>, now: nat, past: seq<seq<Delivery>>, confirmed: set<Event>): State {
    State(b, [], false,
          AtHead, [], false, 0, 0,
          Selecting, [], false,
          Idle, false, now, now,
          false, false,
          rows, [],
          History([], [], [], [], [], past, confirmed))
  }

  function Init(): State {
    Launch(Broker([], {}, map[], {}, {}, 1, true, true), [], 0, [], {})
  }

  /** The flush in progress, seen as a state of the flush machine; Run's context cannot cut a wait short. */
  function CurrentFlush(s: State): Flush
    requires s.run.Flushing?
  {
    Flush(s.run.batch, false, s.run.phase, s.rows, s.calls, s.now, s.run.slept)
  }

  // ---------- environment ----------

  /** A publisher sends a message; a confirmation means that the broker accepted it. */
  function AfterPublish(s: State, body: Body, accepted: bool, confirmed: bool): State {
    if !accepted then s
    else
      s.(broker := Enqueue(s.broker, body), h := Confirm(s.h, body, confirmed))
  }

  /** The broker delivers a queued message, within the prefetch window. */
  predicate CanPush(cfg: Config, s: State, m: nat) {
    && s.broker.connected && s.broker.subscribed && !s.inboxClosed
    && m in s.broker.queue && m < |s.broker.log| && |s.broker.unsettled| < cfg.prefetch
  }

  function AfterPush(cfg: Config, s: State, m: nat): State
    requires CanPush(cfg, s, m)
  {
    s.(broker := Deliver(s.broker, m), inbox := s.inbox + [Parcel(s.broker.nextTag, s.broker.log[m])])
  }

  function AfterLoseConnection(s: State): State {
    s.(broker := Requeue(s.broker, false))
  }

  /** The client library closes its delivery channel, after a cancelled subscription ran dry or a lost connection. */
  predicate CanCloseInbox(s: State) {
    !s.broker.connected || (!s.broker.subscribed && s.inbox == [])
  }

  function AfterCloseInbox(s: State): State {
    s.(inbox := [], inboxClosed := true)
  }

  predicate CanFireTimer(s: State) {
    s.timer.Armed? && s.timer.deadline <= s.now
  }

  function AfterFireTimer(s: State): State
    requires CanFireTimer(s)
  {
    s.(timer := Ticked(s.timer.deadline))
  }

  /** The process ends at any point, by returning or by a crash, and a new one starts. */
  function AfterRestart(s: State): State {
    Launch(Requeue(s.broker, true), s.rows, s.now, s.h.past + s.h.flushed, s.h.confirmed)
  }

  // ---------- receiver ----------

  function AfterCheckContext(s: State): State {
    s.(recv := if s.recvCancelled then Failing else Awaiting)
  }

  predicate CanTakeParcel(s: State) {
    s.recv.Awaiting? && s.inbox != []
  }

  /** Receive decodes and validates the next delivery, and returns it. */
  predicate CanTakeValid(s: State) {
    CanTakeParcel(s) && Accept(s.inbox[0].body).Some?
  }

  function AfterTakeValid(s: State): State
    requires CanTakeValid(s)
  {
    AfterReturn(s, Delivery(s.inbox[0].tag, Accept(s.inbox[0].body).value, true))
  }

  function AfterReturn(s: State, d: Delivery): State
    requires CanTakeParcel(s)
  {
    s.(inbox := s.inbox[1..], recv := Holding(d), h := NoteReturned(s.h, d))
  }

  /** Receive rejects a delivery that does not decode or validate, and goes on unless that fails. */
  predicate CanTakePoison(s: State) {
    CanTakeParcel(s) && Accept(s.inbox[0].body).None?
  }

  function AfterTakePoison(s: State, settles: bool, ok: bool): State
    requires CanTakeParcel(s)
  {
    s.(inbox := s.inbox[1..],
       broker := if settles then Resolve(s.broker, s.inbox[0].tag, false) else s.broker,
       recv := if ok then AtHead else Failing)
  }

  /** The non-blocking send finds room, or the receiver goes on to the blocking select. */
  predicate CanOffer(cfg: Config, s: State) {
    s.recv.Holding? && |s.chan| < cfg.batchSize
  }

  predicate CanBlock(cfg: Config, s: State) {
    s.recv.Holding? && cfg.batchSize <= |s.chan|
  }

  function AfterSend(s: State): State
    requires s.recv.Holding? || s.recv.Blocked?
  {
    s.(chan := s.chan + [s.recv.d], recv := AtHead)
  }

  function AfterBlock(s: State): State
    requires s.recv.Holding?
  {
    s.(recv := Blocked(s.recv.d))
  }

  predicate CanSend(cfg: Config, s: State) {
    s.recv.Blocked? && |s.chan| < cfg.batchSize
  }

  predicate CanDrop(s: State) {
    s.recv.Blocked? && s.recvCancelled
  }

  function AfterDrop(s: State): State
    requires CanDrop(s)
  {
    s.(recv := Failing, h := NoteLost(s.h, s.recv.d))
  }

  /** The result channel has room for one error. */
  predicate CanSendResult(s: State) {
    s.recv.Failing? && s.results < 1
  }

  function AfterSendResult(s: State): State {
    s.(recv := Closing, results := s.results + 1)
  }

  function AfterCloseChannel(s: State): State {
    s.(recv := Gone, chanClosed := true)
  }

  // ---------- Run ----------

  /** Hand a batch to flush. */
  function BeginFlush(cfg: Config, s: State, batch: seq<Delivery>, final: Option<bool>): State {
    s.(run := Flushing(batch, Start(cfg, batch), 0, final),
       batch := [],
       h := NoteFlushed(s.h, batch))
  }

  predicate CanTakeDelivery(cfg: Config, s: State) {
    s.run.Selecting? && s.chan != [] && |s.batch| + 1 < cfg.batchSize
  }

  /** The first delivery of a batch arms the timer. */
  function AfterTakeDelivery(cfg: Config, s: State): State
    requires CanTakeDelivery(cfg, s)
  {
    s.(chan := s.chan[1..],
       batch := s.batch + [s.chan[0]],
       firstAt := if s.batch == [] then s.now else s.firstAt,
       timer := if s.batch == [] then Armed(s.now + cfg.batchTimeout) else s.timer,
       timerLive := s.batch == [] || s.timerLive)
  }

  predicate CanFillBatch(cfg: Config, s: State) {
    s.run.Selecting? && s.chan != [] && cfg.batchSize <= |s.batch| + 1
  }

  /** The delivery that fills the batch: the timer is stopped and the batch is flushed at once. */
  function AfterFillBatch(cfg: Config, s: State): State
    requires CanFillBatch(cfg, s)
  {
    BeginFlush(cfg, s.(chan := s.chan[1..], timer := Idle, timerLive := false), s.batch + [s.chan[0]], None)
  }

  predicate ChannelDone(s: State) {
    s.chan == [] && s.chanClosed
  }

  predicate CanReadResult(s: State) {
    s.run.SawClosed? && 0 < s.results
  }

  /** Without cancellation, a finished receiver means a receive error: Run returns it without flushing. */
  function AfterReadResult(s: State): State
    requires CanReadResult(s)
  {
    s.(results := s.results - 1, resultReads := s.resultReads + 1, receiverDone := true,
       run := if s.ctxDone then Stopping(true) else Returned(false))
  }

  predicate CanExpire(s: State) {
    s.run.Selecting? && s.timerLive && s.timer.Ticked?
  }

  function AfterExpire(cfg: Config, s: State): State
    requires CanExpire(s)
  {
    BeginFlush(cfg, s.(timer := Idle, timerLive := false), s.batch, None)
  }

  /** Stop reporting success means that the subscription is cancelled, or that the connection was gone. */
  predicate CanStop(s: State, ok: bool, cancels: bool) {
    s.run.Stopping? && (ok ==> cancels || !s.broker.connected)
  }

  function AfterStop(s: State, ok: bool, cancels: bool): State {
    s.(broker := Unsubscribe(s.broker, cancels), run := Cancelling(ok))
  }

  /** Stop once the receiver has finished: only the last flush is left to do. */
  function AfterStopLast(cfg: Config, s: State, ok: bool, cancels: bool): State {
    BeginFlush(cfg, s.(broker := Unsubscribe(s.broker, cancels)), s.batch, Some(ok))
  }

  function AfterCancelReceive(s: State): State
    requires s.run.Cancelling?
  {
    s.(recvCancelled := true, run := Draining(s.run.stopOk))
  }

  predicate CanDrain(s: State) {
    s.run.Draining? && s.chan != []
  }

  function AfterDrain(s: State): State
    requires CanDrain(s)
  {
    s.(chan := s.chan[1..], batch := s.batch + [s.chan[0]])
  }

  predicate CanDrainEnd(s: State) {
    s.run.Draining? && ChannelDone(s)
  }

  function AfterDrainEnd(s: State): State
    requires CanDrainEnd(s)
  {
    s.(run := Joining(s.run.stopOk))
  }

  predicate CanJoin(s: State) {
    s.run.Joining? && 0 < s.results
  }

  function AfterJoin(cfg: Config, s: State): State
    requires CanJoin(s)
  {
    BeginFlush(cfg, s.(results := s.results - 1, resultReads := s.resultReads + 1, receiverDone := true, timer := Idle),
               s.batch, Some(s.run.stopOk))
  }

  ghost predicate CanFlush(cfg: Config, s: State, act: Act) {
    s.run.Flushing? && Allowed(cfg, CurrentFlush(s), act)
  }

  /** One step of the flush machine, with its effect on the store, the calls and the clock. */
  function AfterAct(cfg: Config, s: State, act: Act): State
    requires CanFlush(cfg, s, act)
  {
    var f := Step(cfg, CurrentFlush(s), act);
    s.(run := Flushing(s.run.batch, f.phase, f.slept, s.run.final), rows := f.rows, calls := f.calls, now := f.now)
  }

  ghost predicate CanSettle(cfg: Config, s: State, ok: bool) {
    CanFlush(cfg, s, Settle(ok))
  }

  /** A settlement call: what it reports and whether it reaches the broker are separate choices. */
  function AfterSettle(cfg: Config, s: State, ok: bool, settles: bool): State
    requires CanSettle(cfg, s, ok)
  {
    var f := Step(cfg, CurrentFlush(s), Settle(ok));
    var d := s.run.batch[s.run.phase.next];
    s.(run := Flushing(s.run.batch, f.phase, s.run.slept, s.run.final), calls := f.calls,
       broker := if settles then Resolve(s.broker, d.tag, s.run.phase.Acking?) else s.broker,
       h := NoteDone(s.h, d))
  }

  predicate CanFlushReturn(s: State) {
    s.run.Flushing? && s.run.phase.Finished?
  }

  function AfterFlushReturn(s: State): State
    requires CanFlushReturn(s)
  {
    var ok := s.run.phase.ok;
    s.(run := if s.run.final.Some? then Returned(s.run.final.value && ok) else if ok then Selecting else Unwinding)
  }

  function AfterUnwind(s: State): State {
    s.(recvCancelled := true, run := Discarding)
  }

  predicate CanDiscard(s: State) {
    s.run.Discarding? && s.chan != []
  }

  function AfterDiscard(s: State): State
    requires CanDiscard(s)
  {
    s.(chan := s.chan[1..], h := NoteDiscarded(s.h, s.chan[0]))
  }

  predicate CanUnwindJoin(s: State) {
    s.run.UnwindJoining? && 0 < s.results
  }

  function AfterUnwindJoin(s: State): State
    requires CanUnwindJoin(s)
  {
    s.(results := s.results - 1, resultReads := s.resultReads + 1, receiverDone := true, run := Returned(false))
  }

  // ---------- the step relation ----------

  ghost predicate WorldEnabled(cfg: Config, s: State, w: WorldAction) {
    match w
    case Publish(_, accepted, confirmed) => confirmed ==> accepted
    case Push(m) => CanPush(cfg, s, m)
    case LoseConnection => true
    case CloseInbox => CanCloseInbox(s)
    case CancelContext => true
    case PassTime(to) => s.now <= to
    case FireTimer => CanFireTimer(s)
    case Restart => true
  }

  function AfterWorld(cfg: Config, s: State, w: WorldAction): State
    requires WorldEnabled(cfg, s, w)
  {
    match w
    case Publish(body, accepted, confirmed) => AfterPublish(s, body, accepted, confirmed)
    case Push(m) => AfterPush(cfg, s, m)
    case LoseConnection => AfterLoseConnection(s)
    case CloseInbox => AfterCloseInbox(s)
    case CancelContext => s.(ctxDone := true)
    case PassTime(to) => s.(now := to)
    case FireTimer => AfterFireTimer(s)
    case Restart => AfterRestart(s)
  }

  ghost predicate ReceiverEnabled(cfg: Config, s: State, r: ReceiverAction) {
    match r
    case CheckContext => s.recv.AtHead?
    case NoticeCancel => s.recv.Awaiting? && s.recvCancelled
    case TakeValid => CanTakeValid(s)
    case TakePoison(_, _) => CanTakePoison(s)
    case NoticeClosed => s.recv.Awaiting? && s.inbox == [] && s.inboxClosed
    case Offer => CanOffer(cfg, s)
    case Block => CanBlock(cfg, s)
    case Send => CanSend(cfg, s)
    case Drop => CanDrop(s)
    case SendResult => CanSendResult(s)
    case CloseChannel => s.recv.Closing?
  }

  function AfterReceiver(cfg: Config, s: State, r: ReceiverAction): State
    requires ReceiverEnabled(cfg, s, r)
  {
    match r
    case CheckContext => AfterCheckContext(s)
    case NoticeCancel => s.(recv := Failing)
    case TakeValid => AfterTakeValid(s)
    case TakePoison(settles, ok) => AfterTakePoison(s, settles, ok)
    case NoticeClosed => s.(recv := Failing)
    case Offer => AfterSend(s)
    case Block => AfterBlock(s)
    case Send => AfterSend(s)
    case Drop => AfterDrop(s)
    case SendResult => AfterSendResult(s)
    case CloseChannel => AfterCloseChannel(s)
  }

  ghost predicate LoopEnabled(cfg: Config, s: State, l: LoopAction) {
    match l
    case TakeDelivery => CanTakeDelivery(cfg, s)
    case FillBatch => CanFillBatch(cfg, s)
    case SeeClosed => s.run.Selecting? && ChannelDone(s)
    case ReadResult => CanReadResult(s)
    case Expire => CanExpire(s)
    case SeeDone => s.run.Selecting? && s.ctxDone
    case Stop(ok, cancels) => CanStop(s, ok, cancels) && !s.run.done
    case StopLast(ok, cancels) => CanStop(s, ok, cancels) && s.run.done
  }

  function AfterLoop(cfg: Config, s: State, l: LoopAction): State
    requires LoopEnabled(cfg, s, l)
  {
    match l
    case TakeDelivery => AfterTakeDelivery(cfg, s)
    case FillBatch => AfterFillBatch(cfg, s)
    case SeeClosed => s.(run := SawClosed)
    case ReadResult => AfterReadResult(s)
    case Expire => AfterExpire(cfg, s)
    case SeeDone => s.(run := Stopping(false))
    case Stop(ok, cancels) => AfterStop(s, ok, cancels)
    case StopLast(ok, cancels) => AfterStopLast(cfg, s, ok, cancels)
  }

  ghost predicate ExitEnabled(cfg: Config, s: State, e: ExitAction) {
    match e
    case CancelReceive => s.run.Cancelling?
    case Drain => CanDrain(s)
    case DrainEnd => CanDrainEnd(s)
    case Join => CanJoin(s)
    case Unwind => s.run.Unwinding?
    case Discard => CanDiscard(s)
    case DiscardEnd => s.run.Discarding? && ChannelDone(s)
    case UnwindJoin => CanUnwindJoin(s)
  }

  function AfterExit(cfg: Config, s: State, e: ExitAction): State
    requires ExitEnabled(cfg, s, e)
  {
    match e
    case CancelReceive => AfterCancelReceive(s)
    case Drain => AfterDrain(s)
    case DrainEnd => AfterDrainEnd(s)
    case Join => AfterJoin(cfg, s)
    case Unwind => AfterUnwind(s)
    case Discard => AfterDiscard(s)
    case DiscardEnd => s.(run := UnwindJoining)
    case UnwindJoin => AfterUnwindJoin(s)
  }

  ghost predicate FlushEnabled(cfg: Config, s: State, f: FlushAction) {
    match f
    case Attempt(ok, landed) => CanFlush(cfg, s, Insert(ok, landed))
    case WakeUp(at) => CanFlush(cfg, s, Wake(at))
    case SettleNext(ok, _) => CanSettle(cfg, s, ok)
    case FlushReturn => CanFlushReturn(s)
  }

  function AfterFlush(cfg: Config, s: State, f: FlushAction): State
    requires FlushEnabled(cfg, s, f)
  {
    match f
    case Attempt(ok, landed) => AfterAct(cfg, s, Insert(ok, landed))
    case WakeUp(at) => AfterAct(cfg, s, Wake(at))
    case SettleNext(ok, settles) => AfterSettle(cfg, s, ok, settles)
    case FlushReturn => AfterFlushReturn(s)
  }

  ghost predicate Enabled(cfg: Config, s: State, a: Action) {
    match a
    case World(w) => WorldEnabled(cfg, s, w)
    case Receiving(r) => ReceiverEnabled(cfg, s, r)
    case Looping(l) => LoopEnabled(cfg, s, l)
    case Exiting(e) => ExitEnabled(cfg, s, e)
    case InFlush(f) => FlushEnabled(cfg, s, f)
  }

  function Next(cfg: Config, s: State, a: Action): State
    requires Enabled(cfg, s, a)
  {
    match a
    case World(w) => AfterWorld(cfg, s, w)
    case Receiving(r) => AfterReceiver(cfg, s, r)
    case Looping(l) => AfterLoop(cfg, s, l)
    case Exiting(e) => AfterExit(cfg, s, e)
    case InFlush(f) => AfterFlush(cfg, s, f)
  }

  /** The state after a list of actions, or nothing when some action was not possible. */
  ghost function Exec(cfg: Config, s: State, actions: seq<Action>): Option<State> {
    if actions == [] then Some(s)
    else
      var before := Exec(cfg, s, actions[..|actions| - 1]);
      var a := actions[|actions| - 1];
      if before.Some? && Enabled(cfg, before.value, a) then Some(Next(cfg, before.value, a)) else None
  }
}
