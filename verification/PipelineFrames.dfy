/** What each kind of step leaves as it was. */
module PipelineFrames {
  import opened Common
  import opened Events
  import opened FlushMachine
  import opened Pipeline

  /** Two histories that differ at most in the settled, the discarded and the confirmed. */
  ghost predicate SameReceipts(h: History, k: History) {
    h.returned == k.returned && h.lost == k.lost && h.past == k.past
  }

  // ----- environment -----

  lemma WorldKeepsWorker(cfg: Config, s: State, w: WorldAction)
    requires WorldEnabled(cfg, s, w) && !w.Restart?
    ensures var t := AfterWorld(cfg, s, w); t.run == s.run && t.recv == s.recv && t.rows == s.rows
  {
    match w
    case Publish(_, _, _) =>
    case Push(_) =>
    case LoseConnection =>
    case CloseInbox =>
    case CancelContext =>
    case PassTime(_) =>
    case FireTimer =>
    case Restart =>
  }

  lemma WorldKeepsBatch(cfg: Config, s: State, w: WorldAction)
    requires WorldEnabled(cfg, s, w) && !w.Restart?
    ensures var t := AfterWorld(cfg, s, w); t.batch == s.batch && t.firstAt == s.firstAt && s.now <= t.now
  {
    match w
    case Publish(_, _, _) =>
    case Push(_) =>
    case LoseConnection =>
    case CloseInbox =>
    case CancelContext =>
    case PassTime(_) =>
    case FireTimer =>
    case Restart =>
  }

  lemma WorldKeepsChannel(cfg: Config, s: State, w: WorldAction)
    requires WorldEnabled(cfg, s, w) && !w.Restart?
    ensures var t := AfterWorld(cfg, s, w);
            && t.chan == s.chan && t.recvCancelled == s.recvCancelled && t.receiverDone == s.receiverDone
            && t.batch == s.batch
  {
    match w
    case Publish(_, _, _) =>
    case Push(_) =>
    case LoseConnection =>
    case CloseInbox =>
    case CancelContext =>
    case PassTime(_) =>
    case FireTimer =>
    case Restart =>
  }

  lemma WorldKeepsHistory(cfg: Config, s: State, w: WorldAction)
    requires WorldEnabled(cfg, s, w) && !w.Restart?
    ensures var t := AfterWorld(cfg, s, w); SameReceipts(t.h, s.h) && t.h.flushed == s.h.flushed
  {
    match w
    case Publish(_, _, _) =>
    case Push(_) =>
    case LoseConnection =>
    case CloseInbox =>
    case CancelContext =>
    case PassTime(_) =>
    case FireTimer =>
    case Restart =>
  }

  lemma WorldKeepsLog(cfg: Config, s: State, w: WorldAction)
    requires WorldEnabled(cfg, s, w)
    ensures var t := AfterWorld(cfg, s, w);
            s.broker.log <= t.broker.log && (!w.Publish? ==> t.h.confirmed == s.h.confirmed)
  {
    match w
    case Publish(_, _, _) =>
    case Push(_) =>
    case LoseConnection =>
    case CloseInbox =>
    case CancelContext =>
    case PassTime(_) =>
    case FireTimer =>
    case Restart =>
  }

  // ----- receiver -----

  lemma ReceiverKeepsRun(cfg: Config, s: State, r: ReceiverAction)
    requires ReceiverEnabled(cfg, s, r)
    ensures var t := AfterReceiver(cfg, s, r); t.run == s.run && t.rows == s.rows && t.batch == s.batch
  {
    match r
    case CheckContext =>
    case NoticeCancel =>
    case TakeValid =>
    case TakePoison(_, _) =>
    case NoticeClosed =>
    case Offer =>
    case Block =>
    case Send =>
    case Drop =>
    case SendResult =>
    case CloseChannel =>
  }

  lemma ReceiverKeepsTime(cfg: Config, s: State, r: ReceiverAction)
    requires ReceiverEnabled(cfg, s, r)
    ensures var t := AfterReceiver(cfg, s, r); t.firstAt == s.firstAt && t.now == s.now
  {
    match r
    case CheckContext =>
    case NoticeCancel =>
    case TakeValid =>
    case TakePoison(_, _) =>
    case NoticeClosed =>
    case Offer =>
    case Block =>
    case Send =>
    case Drop =>
    case SendResult =>
    case CloseChannel =>
  }

  lemma ReceiverKeepsHistory(cfg: Config, s: State, r: ReceiverAction)
    requires ReceiverEnabled(cfg, s, r)
    ensures var t := AfterReceiver(cfg, s, r); t.h.flushed == s.h.flushed && t.h.past == s.h.past
    ensures !r.TakeValid? ==> AfterReceiver(cfg, s, r).h.returned == s.h.returned
  {
    match r
    case CheckContext =>
    case NoticeCancel =>
    case TakeValid =>
    case TakePoison(_, _) =>
    case NoticeClosed =>
    case Offer =>
    case Block =>
    case Send =>
    case Drop =>
    case SendResult =>
    case CloseChannel =>
  }

  lemma ReceiverKeepsLog(cfg: Config, s: State, r: ReceiverAction)
    requires ReceiverEnabled(cfg, s, r)
    ensures var t := AfterReceiver(cfg, s, r); t.broker.log == s.broker.log && t.h.confirmed == s.h.confirmed
  {
    match r
    case CheckContext =>
    case NoticeCancel =>
    case TakeValid =>
    case TakePoison(_, _) =>
    case NoticeClosed =>
    case Offer =>
    case Block =>
    case Send =>
    case Drop =>
    case SendResult =>
    case CloseChannel =>
  }

  // ----- Run, outside flush -----

  lemma LoopKeepsReceiver(cfg: Config, s: State, l: LoopAction)
    requires LoopEnabled(cfg, s, l)
    ensures var t := AfterLoop(cfg, s, l); t.recv == s.recv && t.rows == s.rows && SameReceipts(t.h, s.h)
  {
    match l
    case TakeDelivery =>
    case FillBatch =>
    case SeeClosed =>
    case ReadResult =>
    case Expire =>
    case SeeDone =>
    case Stop(_, _) =>
    case StopLast(_, _) =>
  }

  lemma LoopKeepsLog(cfg: Config, s: State, l: LoopAction)
    requires LoopEnabled(cfg, s, l)
    ensures var t := AfterLoop(cfg, s, l); t.broker.log == s.broker.log && t.h.confirmed == s.h.confirmed
  {
    match l
    case TakeDelivery =>
    case FillBatch =>
    case SeeClosed =>
    case ReadResult =>
    case Expire =>
    case SeeDone =>
    case Stop(_, _) =>
    case StopLast(_, _) =>
  }

  lemma LoopCountsFlushes(cfg: Config, s: State, l: LoopAction)
    requires LoopEnabled(cfg, s, l)
    ensures var t := AfterLoop(cfg, s, l);
            |t.h.flushed| == |s.h.flushed| + (if t.run.Flushing? then 1 else 0) && t.now == s.now
  {
    match l
    case TakeDelivery =>
    case FillBatch =>
    case SeeClosed =>
    case ReadResult =>
    case Expire =>
    case SeeDone =>
    case Stop(_, _) =>
    case StopLast(_, _) =>
  }

  lemma ExitKeepsReceiver(cfg: Config, s: State, e: ExitAction)
    requires ExitEnabled(cfg, s, e)
    ensures var t := AfterExit(cfg, s, e); t.recv == s.recv && t.rows == s.rows && SameReceipts(t.h, s.h)
  {
    match e
    case CancelReceive =>
    case Drain =>
    case DrainEnd =>
    case Join =>
    case Unwind =>
    case Discard =>
    case DiscardEnd =>
    case UnwindJoin =>
  }

  lemma ExitKeepsLog(cfg: Config, s: State, e: ExitAction)
    requires ExitEnabled(cfg, s, e)
    ensures var t := AfterExit(cfg, s, e); t.broker.log == s.broker.log && t.h.confirmed == s.h.confirmed
  {
    match e
    case CancelReceive =>
    case Drain =>
    case DrainEnd =>
    case Join =>
    case Unwind =>
    case Discard =>
    case DiscardEnd =>
    case UnwindJoin =>
  }

  lemma ExitCountsFlushes(cfg: Config, s: State, e: ExitAction)
    requires ExitEnabled(cfg, s, e)
    ensures var t := AfterExit(cfg, s, e);
            && |t.h.flushed| == |s.h.flushed| + (if t.run.Flushing? then 1 else 0)
            && t.now == s.now && !t.run.Selecting?
  {
    match e
    case CancelReceive =>
    case Drain =>
    case DrainEnd =>
    case Join =>
    case Unwind =>
    case Discard =>
    case DiscardEnd =>
    case UnwindJoin =>
  }

  // ----- flush -----

  lemma FlushKeepsReceiver(cfg: Config, s: State, f: FlushAction)
    requires FlushEnabled(cfg, s, f)
    ensures var t := AfterFlush(cfg, s, f); t.recv == s.recv && SameReceipts(t.h, s.h) && s.run.Flushing?
    ensures !f.Attempt? ==> AfterFlush(cfg, s, f).rows == s.rows
  {
    match f
    case Attempt(_, _) =>
    case WakeUp(_) =>
    case SettleNext(_, _) =>
    case FlushReturn =>
  }

  lemma FlushKeepsLog(cfg: Config, s: State, f: FlushAction)
    requires FlushEnabled(cfg, s, f)
    ensures var t := AfterFlush(cfg, s, f);
            t.broker.log == s.broker.log && t.h.confirmed == s.h.confirmed && t.h.flushed == s.h.flushed
  {
    match f
    case Attempt(_, _) =>
    case WakeUp(_) =>
    case SettleNext(_, _) =>
    case FlushReturn =>
  }
}
