/** Shutdown and fatal errors always end: some goroutine can step, and only so many steps are left. */
module PipelineProgress {
  import opened Common
  import opened Events
  import opened FlushMachine
  import opened Pipeline
  import opened PipelineFrames
  import opened PipelineInvariants
  import opened PipelineSafety

  /** The receiver has been told to stop, or has finished. */
  ghost predicate Ending(s: State) {
    s.recvCancelled || s.receiverDone
  }

  // ---------- a measure that every step of a goroutine decreases ----------

  function ReceiverRank(recv: Receiver): nat {
    match recv
    case Awaiting => 6
    case Holding(_) => 5
    case Blocked(_) => 4
    case AtHead => 3
    case Failing => 2
    case Closing => 1
    case Gone => 0
  }

  function FlushRank(cfg: Config, batch: seq<Delivery>, phase: Phase): int {
    match phase
    case Inserting(k) => 2 * (cfg.maxAttempts - k) + |batch| + 3
    case Waiting(k, _) => 2 * (cfg.maxAttempts - k) + |batch| + 2
    case Acking(i, _) => |batch| - i + 1
    case Rejecting(i) => |batch| - i + 1
    case Finished(_) => 1
  }

  function RunRank(cfg: Config, run: Run): int {
    match run
    case Draining(_) => 2 * cfg.maxAttempts + 5
    case Joining(_) => 2 * cfg.maxAttempts + 4
    case Stopping(_) => 2 * cfg.maxAttempts + 3
    case Flushing(batch, phase, _, _) => FlushRank(cfg, batch, phase)
    case Discarding => 3
    case UnwindJoining => 2
    case _ => 0
  }

  function Measure(cfg: Config, s: State): int {
    3 * ReceiverRank(s.recv) + 2 * |s.chan| + |s.batch| + RunRank(cfg, s.run)
  }

  lemma MeasureIsNatural(cfg: Config, s: State)
    requires Inv(cfg, s)
    ensures 0 <= Measure(cfg, s)
  {
  }

  lemma ReceiverDecreases(cfg: Config, s: State, r: ReceiverAction)
    requires Inv(cfg, s) && Ending(s) && ReceiverEnabled(cfg, s, r)
    ensures var t := AfterReceiver(cfg, s, r); Measure(cfg, t) < Measure(cfg, s) && Ending(t)
  {
    ReceiverKeepsRun(cfg, s, r);
    assert s.recvCancelled;
    match r
    case CheckContext =>
    case NoticeCancel =>
    case TakeValid =>
    case TakePoison(_, _) =>
    case NoticeClosed =>
    case Offer =>
    case Block =>
    case Send =>
    case Drop =>
    case SendResult =>
    case CloseChannel =>
  }

  lemma LoopDecreases(cfg: Config, s: State, l: LoopAction)
    requires Sound(cfg) && Inv(cfg, s) && Ending(s) && LoopEnabled(cfg, s, l)
    ensures var t := AfterLoop(cfg, s, l); Measure(cfg, t) < Measure(cfg, s) && Ending(t)
  {
    assert l.StopLast?;
  }

  lemma ExitDecreases(cfg: Config, s: State, e: ExitAction)
    requires Sound(cfg) && Inv(cfg, s) && Ending(s) && ExitEnabled(cfg, s, e)
    ensures var t := AfterExit(cfg, s, e); Measure(cfg, t) < Measure(cfg, s) && Ending(t)
  {
    match e
    case CancelReceive =>
    case Drain =>
    case DrainEnd =>
    case Join => JoinDecreases(cfg, s);
    case Unwind =>
    case Discard =>
    case DiscardEnd =>
    case UnwindJoin =>
  }

  lemma JoinDecreases(cfg: Config, s: State)
    requires Sound(cfg) && CanJoin(s)
    ensures var t := AfterJoin(cfg, s); Measure(cfg, t) < Measure(cfg, s) && Ending(t)
  {
    if s.batch == [] {
      assert AfterJoin(cfg, s).run.phase == Finished(true);
    } else {
      assert AfterJoin(cfg, s).run.phase == Inserting(1);
    }
  }

  lemma FlushDecreases(cfg: Config, s: State, f: FlushAction)
    requires Inv(cfg, s) && Ending(s) && FlushEnabled(cfg, s, f)
    ensures var t := AfterFlush(cfg, s, f); Measure(cfg, t) < Measure(cfg, s) && Ending(t)
  {
    match f
    case Attempt(_, _) =>
    case WakeUp(_) =>
    case SettleNext(_, _) =>
    case FlushReturn =>
  }

  /** Once ending, every step of a goroutine decreases the measure; the environment leaves it alone. */
  lemma StepDecreases(cfg: Config, s: State, a: Action)
    requires Sound(cfg) && Inv(cfg, s) && Ending(s) && Enabled(cfg, s, a) && WithinOneRun([a])
    ensures var t := Next(cfg, s, a);
            Ending(t) && Measure(cfg, t) <= Measure(cfg, s) - (if a.World? then 0 else 1)
  {
    assert [a][0] == a;
    match a
    case World(w) =>
      WorldKeepsWorker(cfg, s, w);
      WorldKeepsChannel(cfg, s, w);
    case Receiving(r) => ReceiverDecreases(cfg, s, r);
    case Looping(l) => LoopDecreases(cfg, s, l);
    case Exiting(e) => ExitDecreases(cfg, s, e);
    case InFlush(f) => FlushDecreases(cfg, s, f);
  }

  ghost function WorkerSteps(actions: seq<Action>): nat {
    if actions == [] then 0 else WorkerSteps(actions[..|actions| - 1]) + if actions[|actions| - 1].World? then 0 else 1
  }

  /** The measure has come down by at least this many steps. */
  ghost predicate Descended(cfg: Config, s: State, steps: nat, t: State) {
    Ending(t) && steps + Measure(cfg, t) <= Measure(cfg, s)
  }

  lemma DescendsOneMore(cfg: Config, s: State, init: seq<Action>, p: State, a: Action, steps: nat)
    requires Sound(cfg) && Inv(cfg, s) && Exec(cfg, s, init) == Some(p) && Descended(cfg, s, steps, p)
    requires Enabled(cfg, p, a) && WithinOneRun([a])
    ensures Descended(cfg, s, steps + (if a.World? then 0 else 1), Next(cfg, p, a))
  {
    InvAlong(cfg, s, init, p);
    StepDecreases(cfg, p, a);
  }

  lemma LastOfOneRun(actions: seq<Action>)
    requires WithinOneRun(actions) && actions != []
    ensures WithinOneRun(actions[..|actions| - 1]) && WithinOneRun([actions[|actions| - 1]])
  {
  }

  lemma {:induction false} EndingCounts(cfg: Config, s: State, actions: seq<Action>, t: State)
    requires Sound(cfg) && Inv(cfg, s) && Ending(s) && WithinOneRun(actions) && Exec(cfg, s, actions) == Some(t)
    ensures Descended(cfg, s, WorkerSteps(actions), t)
  {
    if actions != [] {
      var init, a := actions[..|actions| - 1], actions[|actions| - 1];
      var p := Exec(cfg, s, init).value;
      LastOfOneRun(actions);
      EndingCounts(cfg, s, init, p);
      DescendsOneMore(cfg, s, init, p, a, WorkerSteps(init));
    }
  }

  /** From an ending state, whatever the environment does, only a bounded number of worker steps remain. */
  lemma EndingTerminates(cfg: Config, s: State, actions: seq<Action>, t: State)
    requires Sound(cfg) && Inv(cfg, s) && Ending(s) && WithinOneRun(actions) && Exec(cfg, s, actions) == Some(t)
    ensures WorkerSteps(actions) <= Measure(cfg, s)
    ensures WorkerSteps(actions) == Measure(cfg, s) ==> t.run.Returned?
  {
    EndingCounts(cfg, s, actions, t);
    InvAlong(cfg, s, actions, t);
    MeasureIsNatural(cfg, t);
    if Measure(cfg, t) == 0 && !t.run.Returned? {
      EndingCanStep(cfg, t);
    }
  }

  // ---------- deadlock freedom ----------

  /** A step the receiver can make after cancellation, as long as it has not closed the channel. */
  function ReceiverMove(cfg: Config, s: State): ReceiverAction {
    match s.recv
    case AtHead => CheckContext
    case Awaiting => NoticeCancel
    case Holding(_) => if |s.chan| < cfg.batchSize then Offer else Block
    case Blocked(_) => Drop
    case Failing => SendResult
    case Closing => CloseChannel
    case Gone => CloseChannel
  }

  lemma ReceiverCanMove(cfg: Config, s: State)
    requires Inv(cfg, s) && s.recvCancelled && !s.chanClosed
    ensures ReceiverEnabled(cfg, s, ReceiverMove(cfg, s))
  {
  }

  function FlushMove(s: State): FlushAction
    requires s.run.Flushing?
  {
    match s.run.phase
    case Inserting(_) => Attempt(false, [])
    case Waiting(_, until) => WakeUp(if until <= s.now then s.now else until)
    case Acking(_, _) => SettleNext(true, true)
    case Rejecting(_) => SettleNext(true, true)
    case Finished(_) => FlushReturn
  }

  /** A flush is never stuck: an insert or a settlement can always fail, and a wait can always end. */
  lemma FlushCanMove(cfg: Config, s: State)
    requires Inv(cfg, s) && s.run.Flushing?
    ensures FlushEnabled(cfg, s, FlushMove(s))
  {
    if s.run.phase.Rejecting? {
      assert Rest(s.run)[0] == s.h.returned[|s.h.done|];
    }
  }

  function EndingMove(cfg: Config, s: State): Action {
    match s.run
    case Draining(_) =>
      if s.chan != [] then Exiting(Drain)
      else if s.chanClosed then Exiting(DrainEnd)
      else Receiving(ReceiverMove(cfg, s))
    case Joining(_) => Exiting(Join)
    case Stopping(_) => Looping(StopLast(true, true))
    case Flushing(_, _, _, _) => InFlush(FlushMove(s))
    case Discarding =>
      if s.chan != [] then Exiting(Discard)
      else if s.chanClosed then Exiting(DiscardEnd)
      else Receiving(ReceiverMove(cfg, s))
    case _ => Exiting(UnwindJoin)
  }

  /** Deadlock freedom: until Run has returned, some goroutine can step without help from the environment. */
  lemma EndingCanStep(cfg: Config, s: State)
    requires Inv(cfg, s) && Ending(s) && !s.run.Returned?
    ensures Enabled(cfg, s, EndingMove(cfg, s)) && !EndingMove(cfg, s).World?
  {
    if (s.run.Draining? || s.run.Discarding?) && s.chan == [] && !s.chanClosed {
      ReceiverCanMove(cfg, s);
    }
    if s.run.Flushing? {
      FlushCanMove(cfg, s);
    }
  }

  // ---------- the way into the end ----------

  /** Run has decided to shut down or has met a fatal error, and has yet to cancel the receiver. */
  ghost predicate Committed(s: State) {
    match s.run
    case SawClosed => true
    case Stopping(done) => !done
    case Cancelling(_) => true
    case Unwinding => true
    case Flushing(_, phase, _, final) =>
      final == None && (phase.Rejecting? || (phase.Acking? && phase.failed) || phase == Finished(false))
    case _ => false
  }

  function CommittedRank(cfg: Config, run: Run): int {
    match run
    case Stopping(_) => 2
    case Flushing(batch, phase, _, _) => FlushRank(cfg, batch, phase) + 1
    case _ => 1
  }

  ghost predicate Nearer(cfg: Config, s: State, t: State) {
    Ending(t) || (Committed(t) && CommittedRank(cfg, t.run) < CommittedRank(cfg, s.run))
  }

  lemma CommittedFlushMoves(cfg: Config, s: State, f: FlushAction)
    requires Inv(cfg, s) && Committed(s) && FlushEnabled(cfg, s, f)
    ensures Nearer(cfg, s, AfterFlush(cfg, s, f))
  {
    match f
    case Attempt(_, _) =>
    case WakeUp(_) =>
    case SettleNext(_, _) =>
    case FlushReturn =>
  }

  lemma CommittedLoopMoves(cfg: Config, s: State, l: LoopAction)
    requires Inv(cfg, s) && Committed(s) && LoopEnabled(cfg, s, l)
    ensures Nearer(cfg, s, AfterLoop(cfg, s, l))
  {
    match l
    case TakeDelivery =>
    case FillBatch =>
    case SeeClosed =>
    case ReadResult =>
    case Expire =>
    case SeeDone =>
    case Stop(_, _) =>
    case StopLast(_, _) =>
  }

  lemma CommittedExitMoves(cfg: Config, s: State, e: ExitAction)
    requires Inv(cfg, s) && Committed(s) && ExitEnabled(cfg, s, e)
    ensures Nearer(cfg, s, AfterExit(cfg, s, e))
  {
    match e
    case CancelReceive =>
    case Drain =>
    case DrainEnd =>
    case Join =>
    case Unwind =>
    case Discard =>
    case DiscardEnd =>
    case UnwindJoin =>
  }

  lemma CommittedRunMoves(cfg: Config, s: State, a: Action)
    requires Inv(cfg, s) && Committed(s) && Enabled(cfg, s, a) && !a.World? && !a.Receiving?
    ensures Nearer(cfg, s, Next(cfg, s, a))
  {
    match a
    case Looping(l) => CommittedLoopMoves(cfg, s, l);
    case Exiting(e) => CommittedExitMoves(cfg, s, e);
    case InFlush(f) => CommittedFlushMoves(cfg, s, f);
  }

  /** Steps of the others do not change Run's course. */
  lemma OthersLeaveCommitment(cfg: Config, s: State, a: Action)
    requires Enabled(cfg, s, a) && (a.World? || a.Receiving?) && WithinOneRun([a])
    ensures Next(cfg, s, a).run == s.run
  {
    assert [a][0] == a;
    match a
    case World(w) => WorldKeepsWorker(cfg, s, w);
    case Receiving(r) => ReceiverKeepsRun(cfg, s, r);
  }

  ghost function RunSteps(actions: seq<Action>): nat {
    if actions == [] then 0
    else
      RunSteps(actions[..|actions| - 1])
      + if actions[|actions| - 1].World? || actions[|actions| - 1].Receiving? then 0 else 1
  }

  /** The end has begun, or this many steps of Run have brought it nearer. */
  ghost predicate OnCourse(cfg: Config, s: State, steps: nat, t: State) {
    Ending(t) || (Committed(t) && steps + CommittedRank(cfg, t.run) <= CommittedRank(cfg, s.run))
  }

  lemma StaysOnCourse(cfg: Config, s: State, steps: nat, p: State, a: Action)
    requires Sound(cfg) && Inv(cfg, p) && OnCourse(cfg, s, steps, p) && Enabled(cfg, p, a) && WithinOneRun([a])
    ensures OnCourse(cfg, s, steps + (if a.World? || a.Receiving? then 0 else 1), Next(cfg, p, a))
  {
    if Ending(p) {
      StepDecreases(cfg, p, a);
    } else if a.World? || a.Receiving? {
      OthersLeaveCommitment(cfg, p, a);
    } else {
      CommittedRunMoves(cfg, p, a);
    }
  }

  /** Once committed, Run itself needs only a bounded number of its own steps to begin the end. */
  lemma {:induction false} CommittedReachesEnding(cfg: Config, s: State, actions: seq<Action>, t: State)
    requires Sound(cfg) && Inv(cfg, s) && Committed(s) && WithinOneRun(actions) && Exec(cfg, s, actions) == Some(t)
    ensures OnCourse(cfg, s, RunSteps(actions), t)
  {
    if actions != [] {
      var init, a := actions[..|actions| - 1], actions[|actions| - 1];
      var p := Exec(cfg, s, init).value;
      LastOfOneRun(actions);
      CommittedReachesEnding(cfg, s, init, p);
      InvAlong(cfg, s, init, p);
      StaysOnCourse(cfg, s, RunSteps(init), p, a);
    }
  }

  function CommittedMove(s: State): Action {
    match s.run
    case SawClosed => Looping(ReadResult)
    case Stopping(_) => Looping(Stop(true, true))
    case Cancelling(_) => Exiting(CancelReceive)
    case Flushing(_, _, _, _) => InFlush(FlushMove(s))
    case _ => Exiting(Unwind)
  }

  /** Until then Run never waits for anybody: a step of its own is always possible. */
  lemma CommittedCanStep(cfg: Config, s: State)
    requires Inv(cfg, s) && Committed(s)
    ensures Enabled(cfg, s, CommittedMove(s)) && !CommittedMove(s).World? && !CommittedMove(s).Receiving?
  {
    if s.run.Flushing? {
      FlushCanMove(cfg, s);
    }
  }

  /**
   Run returns only after the receiver has closed its channel, with the channel empty and the
   receiver's one result read exactly once; and sending that result never has to wait.
   */
  lemma ReturnedAfterReceiver(cfg: Config, actions: seq<Action>, s: State)
    requires Sound(cfg) && Exec(cfg, Init(), actions) == Some(s)
    ensures s.run.Returned? ==> s.recv == Gone && ChannelDone(s) && s.resultReads == 1 && s.results == 0
    ensures s.resultReads <= 1
    ensures s.recv.Failing? ==> CanSendResult(s)
  {
    Reachable(cfg, actions, s);
  }
}
