/**
 The course of a run, told from the outside: why Run leaves its loop, what it returns, and when it
 flushes before it returns. What happened is read off the list of actions alone.
 */
module PipelineCourse {
  import opened Common
  import opened Events
  import opened FlushMachine
  import opened Pipeline
  import opened PipelineFrames
  import opened PipelineInvariants
  import opened PipelineSafety

  // ---------- what an observer notes down ----------

  /** What happened since the last start of the worker. */
  datatype Story = Story(
    cancelled: bool,      // its context was cancelled
    lost: bool,           // the connection was lost
    poisonFailed: bool,   // the reject of a poison message reported an error
    readLive: bool,       // the receiver's error was read while the context was live
    stopFailed: bool,     // the call of Stop reported an error
    failures: nat,        // inserts that failed in a row in the current flush
    flushFailed: bool)    // all inserts of a flush failed, or a settlement call reported an error

  const NOTHING := Story(false, false, false, false, false, 0, false)

  function TellWorld(st: Story, w: WorldAction): Story {
    match w
    case CancelContext => st.(cancelled := true)
    case LoseConnection => st.(lost := true)
    case Restart => NOTHING
    case _ => st
  }

  function TellLoop(st: Story, l: LoopAction): Story {
    match l
    case ReadResult => st.(readLive := st.readLive || !st.cancelled)
    case Stop(ok, _) => st.(stopFailed := st.stopFailed || !ok)
    case StopLast(ok, _) => st.(stopFailed := st.stopFailed || !ok)
    case _ => st
  }

  function TellFlush(cfg: Config, st: Story, f: FlushAction): Story {
    match f
    case Attempt(ok, _) =>
      st.(failures := if ok then 0 else st.failures + 1,
          flushFailed := st.flushFailed || (!ok && st.failures + 1 == cfg.maxAttempts))
    case SettleNext(ok, _) => st.(flushFailed := st.flushFailed || !ok)
    case FlushReturn => st.(failures := 0)
    case WakeUp(_) => st
  }

  function Tell(cfg: Config, st: Story, a: Action): Story {
    match a
    case World(w) => TellWorld(st, w)
    case Receiving(r) => if r.TakePoison? then st.(poisonFailed := st.poisonFailed || !r.ok) else st
    case Looping(l) => TellLoop(st, l)
    case Exiting(_) => st
    case InFlush(f) => TellFlush(cfg, st, f)
  }

  function StoryOf(cfg: Config, actions: seq<Action>): Story {
    if actions == [] then NOTHING
    else Tell(cfg, StoryOf(cfg, actions[..|actions| - 1]), actions[|actions| - 1])
  }

  // ---------- where it leaves Run ----------

  ghost predicate FlushCourse(st: Story, phase: Phase) {
    match phase
    case Inserting(k) => !st.flushFailed && k == st.failures + 1
    case Waiting(k, _) => !st.flushFailed && k == st.failures
    case Acking(_, failed) => st.flushFailed <==> failed
    case Rejecting(_) => st.flushFailed
    case Finished(ok) => st.flushFailed <==> !ok
  }

  /** Nothing has gone wrong in Run so far, and no flush is under way. */
  ghost predicate Unspoilt(st: Story) {
    !st.flushFailed && !st.readLive && st.failures == 0
  }

  ghost predicate RunCourse(st: Story, run: Run) {
    match run
    case Selecting => Unspoilt(st) && !st.stopFailed
    case SawClosed => Unspoilt(st) && !st.stopFailed
    case Stopping(_) => Unspoilt(st) && !st.stopFailed && st.cancelled
    case Cancelling(stopOk) => Unspoilt(st) && (stopOk <==> !st.stopFailed) && st.cancelled
    case Draining(stopOk) => Unspoilt(st) && (stopOk <==> !st.stopFailed) && st.cancelled
    case Joining(stopOk) => Unspoilt(st) && (stopOk <==> !st.stopFailed) && st.cancelled
    case Flushing(_, phase, _, final) =>
      && FlushCourse(st, phase) && !st.readLive
      && if final.Some? then (final.value <==> !st.stopFailed) && st.cancelled else !st.stopFailed
    case Unwinding => st.flushFailed && !st.readLive
    case Discarding => st.flushFailed && !st.readLive
    case UnwindJoining => st.flushFailed && !st.readLive
    case Returned(ok) =>
      && (ok <==> !st.flushFailed && !st.stopFailed && !st.readLive)
      && (st.cancelled || st.flushFailed || st.readLive)
  }

  /** Why the receiver was told to stop, and why it gives up. */
  ghost predicate ReceiverCourse(st: Story, s: State) {
    && (st.cancelled <==> s.ctxDone)
    && (s.recvCancelled ==> st.cancelled || st.flushFailed)
    && (s.recv.Failing? || s.recv.Closing? || s.recv.Gone? ==> s.recvCancelled || s.inboxClosed || st.poisonFailed)
    && (!s.broker.connected ==> st.lost)
    && (!s.broker.subscribed ==> st.lost || st.cancelled)
    && (s.inboxClosed ==> st.lost || st.cancelled)
  }

  ghost predicate Course(st: Story, s: State) {
    RunCourse(st, s.run) && ReceiverCourse(st, s)
  }

  lemma WorldKeepsCourse(cfg: Config, st: Story, s: State, w: WorldAction)
    requires Course(st, s) && WorldEnabled(cfg, s, w)
    ensures Course(TellWorld(st, w), AfterWorld(cfg, s, w))
  {
    match w
    case Publish(_, _, _) =>
    case Push(_) =>
    case LoseConnection =>
    case CloseInbox =>
    case CancelContext =>
    case PassTime(_) =>
    case FireTimer =>
    case Restart =>
  }

  lemma ReceiverKeepsCourse(cfg: Config, st: Story, s: State, r: ReceiverAction)
    requires Course(st, s) && ReceiverEnabled(cfg, s, r)
    ensures Course(Tell(cfg, st, Receiving(r)), AfterReceiver(cfg, s, r))
  {
    match r
    case CheckContext =>
    case NoticeCancel =>
    case TakeValid =>
    case TakePoison(_, _) =>
    case NoticeClosed =>
    case Offer =>
    case Block =>
    case Send =>
    case Drop =>
    case SendResult =>
    case CloseChannel =>
  }

  lemma LoopKeepsCourse(cfg: Config, st: Story, s: State, l: LoopAction)
    requires Sound(cfg) && Course(st, s) && RunControl(cfg, s) && LoopEnabled(cfg, s, l)
    ensures Course(TellLoop(st, l), AfterLoop(cfg, s, l))
  {
    match l
    case TakeDelivery =>
    case FillBatch =>
    case SeeClosed =>
    case ReadResult =>
    case Expire =>
    case SeeDone =>
    case Stop(_, _) =>
    case StopLast(_, _) =>
  }

  lemma ExitKeepsCourse(cfg: Config, st: Story, s: State, e: ExitAction)
    requires Sound(cfg) && Course(st, s) && ExitEnabled(cfg, s, e)
    ensures Course(st, AfterExit(cfg, s, e))
  {
    match e
    case CancelReceive =>
    case Drain =>
    case DrainEnd =>
    case Join =>
    case Unwind =>
    case Discard =>
    case DiscardEnd =>
    case UnwindJoin =>
  }

  lemma FlushKeepsCourse(cfg: Config, st: Story, s: State, f: FlushAction)
    requires Course(st, s) && RunControl(cfg, s) && FlushEnabled(cfg, s, f)
    ensures Course(TellFlush(cfg, st, f), AfterFlush(cfg, s, f))
  {
    match f
    case Attempt(_, _) =>
    case WakeUp(_) =>
    case SettleNext(_, _) =>
    case FlushReturn =>
  }

  lemma StepKeepsCourse(cfg: Config, st: Story, s: State, a: Action)
    requires Sound(cfg) && Course(st, s) && RunControl(cfg, s) && Enabled(cfg, s, a)
    ensures Course(Tell(cfg, st, a), Next(cfg, s, a))
  {
    match a
    case World(w) => WorldKeepsCourse(cfg, st, s, w);
    case Receiving(r) => ReceiverKeepsCourse(cfg, st, s, r);
    case Looping(l) => LoopKeepsCourse(cfg, st, s, l);
    case Exiting(e) => ExitKeepsCourse(cfg, st, s, e);
    case InFlush(f) => FlushKeepsCourse(cfg, st, s, f);
  }

  lemma {:induction false} CourseAlways(cfg: Config, actions: seq<Action>, s: State)
    requires Sound(cfg) && Exec(cfg, Init(), actions) == Some(s)
    ensures Course(StoryOf(cfg, actions), s)
  {
    if actions != [] {
      var init, a := actions[..|actions| - 1], actions[|actions| - 1];
      var p := Exec(cfg, Init(), init).value;
      CourseAlways(cfg, init, p);
      Reachable(cfg, init, p);
      StepKeepsCourse(cfg, StoryOf(cfg, init), p, a);
    }
  }

  // ---------- what is in Run's hands when it returns ----------

  ghost predicate Handed(st: Story, s: State) {
    s.run.Returned? && !st.flushFailed && !st.readLive ==> s.batch == [] && s.h.discarded == [] && s.h.flushed != []
  }

  lemma WorldKeepsHanded(cfg: Config, st: Story, s: State, w: WorldAction)
    requires Handed(st, s) && WorldEnabled(cfg, s, w)
    ensures Handed(TellWorld(st, w), AfterWorld(cfg, s, w))
  {
    match w
    case Publish(_, _, _) =>
    case Push(_) =>
    case LoseConnection =>
    case CloseInbox =>
    case CancelContext =>
    case PassTime(_) =>
    case FireTimer =>
    case Restart =>
  }

  lemma ReceiverKeepsHanded(cfg: Config, st: Story, s: State, r: ReceiverAction)
    requires Handed(st, s) && ReceiverEnabled(cfg, s, r)
    ensures Handed(Tell(cfg, st, Receiving(r)), AfterReceiver(cfg, s, r))
  {
    match r
    case CheckContext =>
    case NoticeCancel =>
    case TakeValid =>
    case TakePoison(_, _) =>
    case NoticeClosed =>
    case Offer =>
    case Block =>
    case Send =>
    case Drop =>
    case SendResult =>
    case CloseChannel =>
  }

  lemma LoopKeepsHanded(cfg: Config, st: Story, s: State, l: LoopAction)
    requires Course(st, s) && LoopEnabled(cfg, s, l)
    ensures Handed(TellLoop(st, l), AfterLoop(cfg, s, l))
  {
    match l
    case TakeDelivery =>
    case FillBatch =>
    case SeeClosed =>
    case ReadResult =>
    case Expire =>
    case SeeDone =>
    case Stop(_, _) =>
    case StopLast(_, _) =>
  }

  lemma ExitKeepsHanded(cfg: Config, st: Story, s: State, e: ExitAction)
    requires Course(st, s) && ExitEnabled(cfg, s, e)
    ensures Handed(st, AfterExit(cfg, s, e))
  {
    match e
    case CancelReceive =>
    case Drain =>
    case DrainEnd =>
    case Join =>
    case Unwind =>
    case Discard =>
    case DiscardEnd =>
    case UnwindJoin =>
  }

  lemma FlushKeepsHanded(cfg: Config, st: Story, s: State, f: FlushAction)
    requires Control(cfg, s) && Order(s) && FlushEnabled(cfg, s, f)
    ensures Handed(TellFlush(cfg, st, f), AfterFlush(cfg, s, f))
  {
    match f
    case Attempt(_, _) =>
    case WakeUp(_) =>
    case SettleNext(_, _) =>
    case FlushReturn =>
  }

  lemma StepKeepsHanded(cfg: Config, st: Story, s: State, a: Action)
    requires Sound(cfg) && Inv(cfg, s) && Course(st, s) && Handed(st, s) && Enabled(cfg, s, a)
    ensures Handed(Tell(cfg, st, a), Next(cfg, s, a))
  {
    match a
    case World(w) => WorldKeepsHanded(cfg, st, s, w);
    case Receiving(r) => ReceiverKeepsHanded(cfg, st, s, r);
    case Looping(l) => LoopKeepsHanded(cfg, st, s, l);
    case Exiting(e) => ExitKeepsHanded(cfg, st, s, e);
    case InFlush(f) => FlushKeepsHanded(cfg, st, s, f);
  }

  lemma {:induction false} HandedAlways(cfg: Config, actions: seq<Action>, s: State)
    requires Sound(cfg) && Exec(cfg, Init(), actions) == Some(s)
    ensures Handed(StoryOf(cfg, actions), s)
  {
    if actions != [] {
      var init, a := actions[..|actions| - 1], actions[|actions| - 1];
      var p := Exec(cfg, Init(), init).value;
      HandedAlways(cfg, init, p);
      CourseAlways(cfg, init, p);
      Reachable(cfg, init, p);
      StepKeepsHanded(cfg, StoryOf(cfg, init), p, a);
    }
  }

  // ---------- theorems ----------

  /** Run is at its loop head, or in a flush it will come back from. */
  ghost predicate InLoop(run: Run) {
    run.Selecting? || (run.Flushing? && run.final == None)
  }

  /**
   Run leaves its loop only for a cause: a cancelled context, a failed flush, or a receiver that gave up
   because the connection was lost or the reject of a poison message failed.
   */
  lemma RunLeavesLoopForCause(cfg: Config, actions: seq<Action>, s: State)
    requires Sound(cfg) && Exec(cfg, Init(), actions) == Some(s)
    ensures var st := StoryOf(cfg, actions);
            !InLoop(s.run) ==> st.cancelled || st.flushFailed || (s.chanClosed && (st.lost || st.poisonFailed))
    ensures var st := StoryOf(cfg, actions);
            s.recv.Failing? || s.recv.Closing? || s.recv.Gone? ==>
              st.cancelled || st.flushFailed || st.lost || st.poisonFailed
  {
    CourseAlways(cfg, actions, s);
    Reachable(cfg, actions, s);
    assert Control(cfg, s) && RunControl(cfg, s);
  }

  /** Without any such cause, however long it runs, Run is in its loop and the receiver at work. */
  lemma UndisturbedRunGoesOn(cfg: Config, actions: seq<Action>, s: State)
    requires Sound(cfg) && Exec(cfg, Init(), actions) == Some(s)
    requires var st := StoryOf(cfg, actions); !st.cancelled && !st.lost && !st.poisonFailed && !st.flushFailed
    ensures InLoop(s.run) && !s.chanClosed && !(s.recv.Failing? || s.recv.Closing? || s.recv.Gone?)
  {
    RunLeavesLoopForCause(cfg, actions, s);
    Reachable(cfg, actions, s);
  }

  /**
   What Run returns: nil exactly when no flush failed, Stop reported no error, and the receiver's error
   was not read while the context was live.
   */
  lemma RunReturnsNilExactly(cfg: Config, actions: seq<Action>, s: State)
    requires Sound(cfg) && Exec(cfg, Init(), actions) == Some(s) && s.run.Returned?
    ensures var st := StoryOf(cfg, actions); s.run.ok <==> !st.flushFailed && !st.stopFailed && !st.readLive
  {
    CourseAlways(cfg, actions, s);
  }

  /**
   Run flushes whatever it holds before it returns, also when Stop fails and also when the receiver had
   finished by itself, unless a flush failed or the receiver's error was read while the context was live.
   */
  lemma RunFlushesBeforeReturn(cfg: Config, actions: seq<Action>, s: State)
    requires Sound(cfg) && Exec(cfg, Init(), actions) == Some(s) && s.run.Returned?
    requires var st := StoryOf(cfg, actions); !st.flushFailed && !st.readLive
    ensures StoryOf(cfg, actions).cancelled && s.h.flushed != []
    ensures s.h.returned == Flatten(s.h.flushed) + s.h.lost && |s.calls| == |Flatten(s.h.flushed)|
  {
    CourseAlways(cfg, actions, s);
    HandedAlways(cfg, actions, s);
    Reachable(cfg, actions, s);
  }

  // ---------- one step at a time, told without the transition functions ----------

  /**
   When a flush is over: a successful one in the loop is followed by the loop head with an empty batch and
   the timer at rest, a failed one by the deferred function; the last one by the return.
   */
  lemma AfterTheFlush(cfg: Config, actions: seq<Action>, s: State)
    requires Sound(cfg) && Exec(cfg, Init(), actions) == Some(s) && s.run.Flushing? && Enabled(cfg, s, InFlush(FlushReturn))
    ensures var st, t := StoryOf(cfg, actions), Next(cfg, s, InFlush(FlushReturn));
            if s.run.final.Some? then t.run.Returned?
            else if st.flushFailed then t.run == Unwinding
            else t.run == Selecting && t.batch == [] && t.timer == Idle
  {
    CourseAlways(cfg, actions, s);
    Reachable(cfg, actions, s);
    assert TimerOk(cfg, s) && RunControl(cfg, s);
  }

  /** At the loop head a waiting delivery can be taken: it joins the batch, and the batch it fills is flushed at once. */
  lemma LoopHeadTakesDelivery(cfg: Config, actions: seq<Action>, s: State) returns (l: LoopAction)
    requires Sound(cfg) && Exec(cfg, Init(), actions) == Some(s) && s.run.Selecting? && s.chan != []
    ensures LoopEnabled(cfg, s, l)
    ensures var t, batch := Next(cfg, s, Looping(l)), s.batch + [s.chan[0]];
            && t.chan == s.chan[1..]
            && if |batch| < cfg.batchSize then
                 && t.run == Selecting && t.batch == batch
                 && (s.batch == [] ==> t.timer == Armed(s.now + cfg.batchTimeout) && t.timerLive)
               else t.run.Flushing? && t.run.batch == batch && t.run.final == None && t.timer == Idle
  {
    l := if |s.batch| + 1 < cfg.batchSize then TakeDelivery else FillBatch;
  }

  /** A batch does not wait for ever: past its deadline the timer can fire, and then the whole batch is flushed. */
  lemma LoopHeadFlushesInTime(cfg: Config, actions: seq<Action>, s: State)
    requires Sound(cfg) && Exec(cfg, Init(), actions) == Some(s) && s.run.Selecting? && s.batch != []
    requires s.firstAt + cfg.batchTimeout <= s.now
    ensures if s.timer.Armed? then Enabled(cfg, s, World(FireTimer)) && Next(cfg, s, World(FireTimer)).timer.Ticked?
            else
              && Enabled(cfg, s, Looping(Expire))
              && var t := Next(cfg, s, Looping(Expire));
                 t.run.Flushing? && t.run.batch == s.batch && t.run.final == None && t.timer == Idle
  {
    Reachable(cfg, actions, s);
    assert TimerOk(cfg, s);
  }

  /** A cancelled context, or a channel closed and empty, is noticed at the loop head. */
  lemma LoopHeadNoticesTheEnd(cfg: Config, s: State)
    requires s.run.Selecting?
    ensures s.ctxDone ==> Enabled(cfg, s, Looping(SeeDone)) && Next(cfg, s, Looping(SeeDone)).run == Stopping(false)
    ensures s.chan == [] && s.chanClosed ==>
              Enabled(cfg, s, Looping(SeeClosed)) && Next(cfg, s, Looping(SeeClosed)).run == SawClosed
  {
  }

  /** A receiver at work hands on the next parcel when it is valid. */
  lemma ReceiverHandsOn(cfg: Config, s: State, tag: nat, body: Body, rest: seq<Parcel>)
    requires s.recv.Awaiting? && s.inbox == [Parcel(tag, body)] + rest && Accept(body).Some?
    ensures Enabled(cfg, s, Receiving(TakeValid))
    ensures var t := Next(cfg, s, Receiving(TakeValid));
            t.inbox == rest && t.recv == Holding(Delivery(tag, Accept(body).value, true))
  {
    assert s.inbox[0] == Parcel(tag, body) && s.inbox[1..] == rest;
  }

  /** It goes on after rejecting a poison one, which then is in the dead-letter queue; and gives up if that fails. */
  lemma ReceiverRejectsPoison(cfg: Config, s: State, tag: nat, body: Body, rest: seq<Parcel>, ok: bool)
    requires s.recv.Awaiting? && s.inbox == [Parcel(tag, body)] + rest && Accept(body).None?
    ensures Enabled(cfg, s, Receiving(TakePoison(true, ok)))
    ensures var t := Next(cfg, s, Receiving(TakePoison(true, ok)));
            && t.inbox == rest && t.recv == (if ok then AtHead else Failing)
            && (tag in s.broker.unsettled ==>
                  s.broker.unsettled[tag] in t.broker.dead && tag !in t.broker.unsettled)
  {
    assert s.inbox[0] == Parcel(tag, body) && s.inbox[1..] == rest;
  }

  lemma ReceiverGoesOn(cfg: Config, s: State)
    ensures s.recv.AtHead? && !s.recvCancelled ==>
              Enabled(cfg, s, Receiving(CheckContext)) && Next(cfg, s, Receiving(CheckContext)).recv == Awaiting
    ensures s.recv.Holding? && |s.chan| < cfg.batchSize ==>
              && Enabled(cfg, s, Receiving(Offer))
              && var t := Next(cfg, s, Receiving(Offer)); t.recv == AtHead && t.chan == s.chan + [s.recv.d]
    ensures s.recv.Blocked? && |s.chan| < cfg.batchSize ==>
              && Enabled(cfg, s, Receiving(Send))
              && var t := Next(cfg, s, Receiving(Send)); t.recv == AtHead && t.chan == s.chan + [s.recv.d]
  {
  }

  /** A Stop that cancels the subscription ends the deliveries. */
  lemma StopEndsDeliveries(cfg: Config, s: State, ok: bool, m: nat)
    requires Enabled(cfg, s, Looping(Stop(ok, true)))
    ensures !Enabled(cfg, Next(cfg, s, Looping(Stop(ok, true))), World(Push(m)))
  {
  }

  /** A settlement that reaches the broker leaves the message acked after a good insert, dead-lettered after a failed flush. */
  lemma SettlementReachesBroker(cfg: Config, s: State, ok: bool, tag: nat)
    requires Enabled(cfg, s, InFlush(SettleNext(ok, true)))
    requires tag == s.run.batch[s.run.phase.next].tag && tag in s.broker.unsettled
    ensures var m, b := s.broker.unsettled[tag], Next(cfg, s, InFlush(SettleNext(ok, true))).broker;
            (if s.run.phase.Acking? then m in b.acked else m in b.dead) && tag !in b.unsettled
  {
    SettlementResolves(cfg, s, ok, tag);
  }

  lemma SettlementResolves(cfg: Config, s: State, ok: bool, tag: nat)
    requires CanSettle(cfg, s, ok) && tag == s.run.batch[s.run.phase.next].tag && tag in s.broker.unsettled
    ensures var m, b := s.broker.unsettled[tag], AfterSettle(cfg, s, ok, true).broker;
            (if s.run.phase.Acking? then m in b.acked else m in b.dead) && tag !in b.unsettled
  {
  }
}
