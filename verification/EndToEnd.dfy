/** What the parts give together: from an accepted input to the statistics over the stored rows. */
module EndToEnd {
  import opened Common
  import opened Events
  import opened FlushMachine
  import opened Pipeline
  import opened PipelineInvariants
  import opened PipelineSafety
  import opened Publishing
  import opened Analytics
  import opened Queries

  /**
   An input that Ingest accepted and the broker confirmed stays somewhere: its message, which the
   consumer will hand on unchanged, is queued, held unsettled or dead-lettered, or has its row.
   */
  lemma AcceptedInputIsKept(cfg: Config, actions: seq<Action>, s: State, id: UUID, input: Input) returns (m: nat)
    requires Sound(cfg) && Exec(cfg, Init(), actions) == Some(s)
    requires id != NIL && ValidateInput(input) == None && EventOf(id, input) in s.h.confirmed
    ensures m < |s.broker.log| && Accept(s.broker.log[m]) == Some(EventOf(id, input))
    ensures || m in s.broker.queue || m in s.broker.unsettled.Values || m in s.broker.dead || HasId(s.rows, id)
  {
    m := NoConfirmedEventLost(cfg, actions, s, EventOf(id, input));
    PublishedPassesConsumer(id, input);
  }

  /**
   In every reachable state the statistics over the store account for each matching row once, as an
   install, a session or a purchase, and never show negative revenue.
   */
  lemma StoredStatisticsAddUp(cfg: Config, actions: seq<Action>, s: State, appID: UUID, f: Filter)
    requires Sound(cfg) && Exec(cfg, Init(), actions) == Some(s)
    ensures var a := Statistics(s.rows, appID, f);
            a.installs + a.sessions + a.purchases == |MatchingRows(s.rows, appID, f)| && 0 <= a.revenueCents
  {
    StoredRowsAreValid(cfg, actions, s);
    StatisticsCountEveryMatch(s.rows, appID, f);
  }

  /**
   With the constants of the source, where prefetch and channel have the same size, a nil result of
   Run means that every delivery returned was acked and stored; the delays between three attempts add up to 300 ms.
   */
  lemma ProductionShutsDownCleanly(actions: seq<Action>, s: State)
    requires Exec(PRODUCTION, Init(), actions) == Some(s) && s.run == Returned(true)
    ensures |s.calls| == |s.h.returned|
    ensures forall i | 0 <= i < |s.h.returned| ::
              s.calls[i] == Ack(s.h.returned[i].tag, true) && HasId(s.rows, s.h.returned[i].event.eventID)
    ensures TotalDelay(PRODUCTION, PRODUCTION.maxAttempts - 1) == 300
  {
    GracefulShutdownLosesNothing(PRODUCTION, actions, s);
    TotalDelayClosedForm(PRODUCTION, 2);
  }
}
