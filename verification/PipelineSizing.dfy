/**
 Why the channel is sized to the prefetch: a run that returns nil has dropped nothing, in all
 interleavings, if and only if prefetch does not exceed the channel's capacity.
 */
module PipelineSizing {
  import opened Common
  import opened Events
  import opened FlushMachine
  import opened Pipeline
  import opened PipelineInvariants
  import opened PipelineSafety

  const SAMPLE := Event(1, 1, SESSION, "RS", ANDROID, 0, Timestamp(1, 0))

  lemma SampleIsAccepted()
    ensures Accept(Encoded(SAMPLE)) == Some(SAMPLE)
  {
  }

  lemma Extend(cfg: Config, actions: seq<Action>, s: State, a: Action)
    requires Exec(cfg, Init(), actions) == Some(s) && Enabled(cfg, s, a)
    ensures Exec(cfg, Init(), actions + [a]) == Some(Next(cfg, s, a))
  {
    assert (actions + [a])[..|actions|] == actions;
  }

  /** The receiver has put k deliveries in the channel and Run has not taken any. */
  ghost predicate Filled(s: State, k: nat) {
    && s.run == Selecting && s.recv == AtHead && |s.chan| == k && s.batch == []
    && s.inbox == [] && !s.inboxClosed && s.broker.connected && s.broker.subscribed
    && |s.broker.unsettled| == k && !s.recvCancelled
  }

  /** One more message is published, delivered and returned by Receive. */
  lemma ReturnOne(cfg: Config, actions: seq<Action>, s: State, k: nat) returns (longer: seq<Action>, t: State)
    requires Sound(cfg) && Exec(cfg, Init(), actions) == Some(s) && Filled(s, k) && k < cfg.prefetch
    ensures Exec(cfg, Init(), longer) == Some(t)
    ensures t.recv.Holding? && Filled(t.(recv := AtHead, broker := t.broker.(unsettled := s.broker.unsettled)), k)
    ensures |t.broker.unsettled| == k + 1
  {
    Reachable(cfg, actions, s);
    var m := |s.broker.log|;
    var publish := World(Publish(Encoded(SAMPLE), true, false));
    Extend(cfg, actions, s, publish);
    var s1 := Next(cfg, s, publish);
    assert CanPush(cfg, s1, m) && m !in s.broker.unsettled.Values;
    Extend(cfg, actions + [publish], s1, World(Push(m)));
    var s2 := AfterPush(cfg, s1, m);
    assert s2.broker.unsettled.Keys == s.broker.unsettled.Keys + {s.broker.nextTag};
    var a3 := actions + [publish] + [World(Push(m))];
    Extend(cfg, a3, s2, Receiving(CheckContext));
    var s3 := AfterCheckContext(s2);
    SampleIsAccepted();
    assert s3.inbox[0].body == Encoded(SAMPLE);
    Extend(cfg, a3 + [Receiving(CheckContext)], s3, Receiving(TakeValid));
    longer := a3 + [Receiving(CheckContext)] + [Receiving(TakeValid)];
    t := AfterTakeValid(s3);
  }

  lemma {:induction false} FillChannel(cfg: Config, k: nat) returns (actions: seq<Action>, s: State)
    requires Sound(cfg) && k <= cfg.batchSize < cfg.prefetch
    ensures Exec(cfg, Init(), actions) == Some(s) && Filled(s, k)
  {
    actions, s := [], Init();
    if k > 0 {
      actions, s := FillChannel(cfg, k - 1);
      actions, s := ReturnOne(cfg, actions, s, k - 1);
      Extend(cfg, actions, s, Receiving(Offer));
      actions, s := actions + [Receiving(Offer)], AfterSend(s);
    }
  }

  /** Shutdown has begun, the receiver has dropped a delivery and closed the channel. */
  ghost predicate Dropped(s: State) {
    s.run == Draining(true) && s.h.lost != [] && s.chanClosed && s.results == 1
  }

  lemma BlockAndDrop(cfg: Config) returns (actions: seq<Action>, s: State)
    requires Sound(cfg) && cfg.batchSize < cfg.prefetch
    ensures Exec(cfg, Init(), actions) == Some(s) && Dropped(s) && s.chan != []
  {
    actions, s := FillChannel(cfg, cfg.batchSize);
    actions, s := ReturnOne(cfg, actions, s, cfg.batchSize);
    Extend(cfg, actions, s, Receiving(Block));
    actions, s := actions + [Receiving(Block)], AfterBlock(s);
    Extend(cfg, actions, s, World(CancelContext));
    actions, s := actions + [World(CancelContext)], s.(ctxDone := true);
    Extend(cfg, actions, s, Looping(SeeDone));
    actions, s := actions + [Looping(SeeDone)], s.(run := Stopping(false));
    actions, s := StopAndDrop(cfg, actions, s);
  }

  lemma StopAndDrop(cfg: Config, actions: seq<Action>, s: State) returns (longer: seq<Action>, t: State)
    requires Sound(cfg) && Exec(cfg, Init(), actions) == Some(s)
    requires s.run == Stopping(false) && s.recv.Blocked? && s.chan != []
    ensures Exec(cfg, Init(), longer) == Some(t) && Dropped(t) && t.chan == s.chan
  {
    Reachable(cfg, actions, s);
    Extend(cfg, actions, s, Looping(Stop(true, true)));
    var s1 := AfterStop(s, true, true);
    Extend(cfg, actions + [Looping(Stop(true, true))], s1, Exiting(CancelReceive));
    var a2, s2 := actions + [Looping(Stop(true, true))] + [Exiting(CancelReceive)], AfterCancelReceive(s1);
    Extend(cfg, a2, s2, Receiving(Drop));
    var a3, s3 := a2 + [Receiving(Drop)], AfterDrop(s2);
    Extend(cfg, a3, s3, Receiving(SendResult));
    var a4, s4 := a3 + [Receiving(SendResult)], AfterSendResult(s3);
    Extend(cfg, a4, s4, Receiving(CloseChannel));
    longer, t := a4 + [Receiving(CloseChannel)], AfterCloseChannel(s4);
  }

  lemma {:induction false} DrainAll(cfg: Config, actions: seq<Action>, s: State) returns (longer: seq<Action>, t: State)
    requires Exec(cfg, Init(), actions) == Some(s) && Dropped(s)
    ensures Exec(cfg, Init(), longer) == Some(t) && Dropped(t) && t.chan == []
    ensures s.chan != [] || s.batch != [] ==> t.batch != []
    decreases |s.chan|
  {
    longer, t := actions, s;
    if s.chan != [] {
      Extend(cfg, actions, s, Exiting(Drain));
      longer, t := DrainAll(cfg, actions + [Exiting(Drain)], AfterDrain(s));
    }
  }

  lemma {:induction false} AckAll(cfg: Config, actions: seq<Action>, s: State) returns (longer: seq<Action>, t: State)
    requires Exec(cfg, Init(), actions) == Some(s)
    requires s.run.Flushing? && s.run.phase.Acking? && !s.run.phase.failed && s.run.phase.next < |s.run.batch|
    ensures Exec(cfg, Init(), longer) == Some(t) && t.h.lost == s.h.lost
    ensures t.run.Flushing? && t.run.phase == Finished(true) && t.run.final == s.run.final
    decreases |s.run.batch| - s.run.phase.next
  {
    var settle := InFlush(SettleNext(true, true));
    Extend(cfg, actions, s, settle);
    longer, t := actions + [settle], AfterSettle(cfg, s, true, true);
    if t.run.phase.Acking? {
      longer, t := AckAll(cfg, longer, t);
    }
  }

  /** With a larger prefetch, a shutdown can drop a delivery and still return nil. */
  lemma DropsWhenPrefetchExceedsCapacity(cfg: Config) returns (actions: seq<Action>, s: State)
    requires Sound(cfg) && cfg.batchSize < cfg.prefetch
    ensures Exec(cfg, Init(), actions) == Some(s) && s.run == Returned(true) && s.h.lost != []
  {
    actions, s := BlockAndDrop(cfg);
    actions, s := DrainAll(cfg, actions, s);
    Extend(cfg, actions, s, Exiting(DrainEnd));
    actions, s := actions + [Exiting(DrainEnd)], AfterDrainEnd(s);
    Extend(cfg, actions, s, Exiting(Join));
    actions, s := actions + [Exiting(Join)], AfterJoin(cfg, s);
    var rows := RowsOf(Dedup(s.run.batch));
    Extend(cfg, actions, s, InFlush(Attempt(true, rows)));
    actions, s := actions + [InFlush(Attempt(true, rows))], AfterAct(cfg, s, Insert(true, rows));
    actions, s := AckAll(cfg, actions, s);
    Extend(cfg, actions, s, InFlush(FlushReturn));
    actions, s := actions + [InFlush(FlushReturn)], AfterFlushReturn(s);
  }

  ghost predicate NilDropsNothing(cfg: Config) {
    forall actions, s | Exec(cfg, Init(), actions) == Some(s) && s.run == Returned(true) :: s.h.lost == []
  }

  lemma NothingDroppedIffPrefetchFits(cfg: Config)
    requires Sound(cfg)
    ensures NilDropsNothing(cfg) <==> cfg.prefetch <= cfg.batchSize
  {
    if cfg.prefetch <= cfg.batchSize {
      forall actions, s | Exec(cfg, Init(), actions) == Some(s) && s.run == Returned(true) ensures s.h.lost == [] {
        NeverBlocked(cfg, actions, s);
      }
    } else {
      var actions, s := DropsWhenPrefetchExceedsCapacity(cfg);
      assert Exec(cfg, Init(), actions) == Some(s) && s.run == Returned(true);
    }
  }
}
