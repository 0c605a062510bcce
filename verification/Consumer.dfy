/** The RabbitMQ consumer: receiving the next valid delivery, and stopping and closing the subscription. */
module Consumers {
  import opened Common
  import opened Events
  import opened FlushMachine
  import opened Pipeline
  import opened Workers

  // ---------- the subscription ----------

  /** What the broker answers to a cancel or close request. */
  datatype Reply = Done | AlreadyClosed | Refused

  /** The flags of the consumer, and how often it made each request. */
  datatype Subscription = Subscription(
    stopped: bool, closed: bool, cancels: nat, channelCloses: nat, connectionCloses: nat)

  const OPEN := Subscription(false, false, 0, 0, 0)

  function Stopped(s: Subscription): Subscription {
    if s.stopped || s.closed then s else s.(stopped := true, cancels := s.cancels + 1)
  }

  function Closed(s: Subscription): Subscription {
    if s.closed then s
    else
      Subscription(true, true, if s.stopped then s.cancels else s.cancels + 1,
                   s.channelCloses + 1, s.connectionCloses + 1)
  }

  datatype Request = StopRequest | CloseRequest

  function AfterRequests(s: Subscription, requests: seq<Request>): Subscription {
    if requests == [] then s
    else
      var before := AfterRequests(s, requests[..|requests| - 1]);
      if requests[|requests| - 1].StopRequest? then Stopped(before) else Closed(before)
  }

  /**
   Whatever the order and number of Stop and Close calls, the subscription is cancelled exactly
   once as soon as there was any, and channel and connection are closed exactly once as soon as
   there was a Close.
   */
  lemma {:induction false} RequestsTakeEffectOnce(requests: seq<Request>)
    ensures var s := AfterRequests(OPEN, requests);
            && (s.closed <==> CloseRequest in requests) && (s.stopped <==> requests != [])
            && s.cancels == (if requests == [] then 0 else 1)
            && s.channelCloses == s.connectionCloses == (if CloseRequest in requests then 1 else 0)
  {
    if requests != [] {
      var init, last := requests[..|requests| - 1], requests[|requests| - 1];
      assert requests == init + [last];
      RequestsTakeEffectOnce(init);
      match last
      case StopRequest =>
        assert CloseRequest in requests <==> CloseRequest in init;
      case CloseRequest =>
        assert CloseRequest in requests;
    }
  }

  // ---------- receiving ----------

  /** A context, watched by the number of times it has been looked at; once done, it stays done. */
  class Context {
    /** It is cancelled before it is looked at for the n-th time; or never. */
    const cancelledAt: Option<nat>
    var looks: nat

    constructor (cancelledAt: Option<nat>)
      ensures this.cancelledAt == cancelledAt && looks == 0
    {
      this.cancelledAt := cancelledAt;
      looks := 0;
    }

    predicate Done()
      reads this`looks
    {
      cancelledAt.Some? && cancelledAt.value <= looks
    }

    method Look() returns (done: bool)
      modifies this
      ensures looks == old(looks) + 1 && done == old(Done())
    {
      done := Done();
      looks := looks + 1;
    }
  }

  datatype Received =
    | Delivered(d: Delivery)
    | Cancelled
    | ChannelClosed
    | PoisonNotRejected(tag: nat, malformed: bool)

  ghost predicate Poison(p: Parcel) {
    Accept(p.body).None?
  }

  ghost predicate AllPoison(parcels: seq<Parcel>) {
    forall i | 0 <= i < |parcels| :: Poison(parcels[i])
  }

  /** One reject for each of these parcels, in order; all succeed, except perhaps the last. */
  ghost predicate RejectedInOrder(calls: seq<Call>, parcels: seq<Parcel>, lastOk: bool) {
    && |calls| == |parcels|
    && forall i | 0 <= i < |calls| :: calls[i] == Reject(parcels[i].tag, lastOk || i < |calls| - 1)
  }

  lemma PoisonRejected(
    replies: nat -> bool, calls: seq<Call>, made: seq<Call>, taken: seq<Parcel>, parcel: Parcel, n: nat, ok: bool)
    requires AllPoison(taken) && RejectedInOrder(made, taken, true) && Answered(replies, |calls|, made)
    requires Poison(parcel) && n == |calls| + |made| && ok == replies(n)
    ensures AllPoison(taken + [parcel]) && RejectedInOrder(made + [Reject(parcel.tag, ok)], taken + [parcel], ok)
    ensures Answered(replies, |calls|, made + [Reject(parcel.tag, ok)])
    ensures calls + (made + [Reject(parcel.tag, ok)]) == (calls + made) + [Reject(parcel.tag, ok)]
  {
  }

  /** What a call of Receive says about the parcels it took and the settlement calls it made. */
  ghost predicate Explains(result: Received, taken: seq<Parcel>, rest: seq<Parcel>, calls: seq<Call>) {
    match result
    case Delivered(d) =>
      && taken != []
      && var last := taken[|taken| - 1];
         && AllPoison(taken[..|taken| - 1]) && RejectedInOrder(calls, taken[..|taken| - 1], true)
         && Accept(last.body).Some? && d == Delivery(last.tag, Accept(last.body).value, true)
    case Cancelled => AllPoison(taken) && RejectedInOrder(calls, taken, true)
    case ChannelClosed => rest == [] && AllPoison(taken) && RejectedInOrder(calls, taken, true)
    case PoisonNotRejected(tag, malformed) =>
      && taken != [] && AllPoison(taken) && RejectedInOrder(calls, taken, false)
      && tag == taken[|taken| - 1].tag && malformed == taken[|taken| - 1].body.Malformed?
  }

  class Consumer {
    const channel: Channel
    /** Everything the client library will deliver before its channel closes, oldest first. */
    var inbox: seq<Parcel>
    var subscription: Subscription

    constructor (channel: Channel, inbox: seq<Parcel>)
      ensures this.channel == channel && this.inbox == inbox && subscription == OPEN
    {
      this.channel := channel;
      this.inbox := inbox;
      subscription := OPEN;
    }

    /**
     Returns the first valid delivery, after rejecting exactly the poison before it, in order. It
     gives up on cancellation, on the end of the deliveries, or on a reject that fails; whatever it
     took by then was poison and its reject was attempted. A cancelled context takes nothing, one that
     nobody cancels never ends the call, and no turn of the loop begins once it is cancelled. Where a delivery and the cancellation are both ready, prefersCancel says
     which of them the select takes.
     */
    method Receive(ctx: Context, prefersCancel: nat -> bool)
      returns (result: Received, ghost taken: seq<Parcel>, ghost made: seq<Call>)
      modifies this`inbox, channel, ctx
      ensures old(inbox) == taken + inbox && channel.calls == old(channel.calls) + made
      ensures Answered(channel.replies, |old(channel.calls)|, made)
      ensures Explains(result, taken, inbox, made)
      ensures result.Cancelled? ==> ctx.cancelledAt.Some? && ctx.cancelledAt.value < ctx.looks
      ensures !result.Cancelled? ==>
                var turns := |taken| + if result.ChannelClosed? then 1 else 0;
                ctx.looks == old(ctx.looks) + 2 * turns
                && (ctx.cancelledAt.Some? ==> old(ctx.looks) + 2 * turns - 2 < ctx.cancelledAt.value)
      ensures old(ctx.Done()) ==> result == Cancelled && taken == []
    {
      ghost var calls0 := channel.calls;
      taken, made := [], [];
      while true
        invariant old(inbox) == taken + inbox && channel.calls == calls0 + made
        invariant Answered(channel.replies, |calls0|, made)
        invariant AllPoison(taken) && RejectedInOrder(made, taken, true)
        invariant ctx.looks == old(ctx.looks) + 2 * |taken|
        invariant ctx.cancelledAt.Some? && taken != [] ==> ctx.looks - 2 < ctx.cancelledAt.value
        invariant old(ctx.Done()) ==> taken == []
        decreases |inbox|
      {
        var done := ctx.Look();
        if done {
          return Cancelled, taken, made;
        }
        done := ctx.Look();
        if done && prefersCancel(|inbox|) {
          return Cancelled, taken, made;
        }
        if inbox == [] {
          return ChannelClosed, taken, made;
        }
        var parcel := inbox[0];
        assert taken + inbox == (taken + [parcel]) + inbox[1..];
        inbox := inbox[1..];
        ghost var poison, n := taken, |channel.calls|;
        taken := taken + [parcel];
        assert taken[..|taken| - 1] == poison;
        var accepted := Accept(parcel.body);
        if accepted.Some? {
          return Delivered(Delivery(parcel.tag, accepted.value, true)), taken, made;
        }
        var ok := channel.RejectOne(parcel.tag);
        PoisonRejected(channel.replies, calls0, made, poison, parcel, n, ok);
        made := made + [Reject(parcel.tag, ok)];
        if !ok {
          return PoisonNotRejected(parcel.tag, parcel.body.Malformed?), taken, made;
        }
      }
    }

    method Stop(reply: Reply) returns (ok: bool)
      modifies this`subscription
      ensures subscription == Stopped(old(subscription))
      ensures ok <==> old(subscription).stopped || old(subscription).closed || reply != Refused
    {
      if subscription.stopped || subscription.closed {
        return true;
      }
      subscription := subscription.(stopped := true, cancels := subscription.cancels + 1);
      ok := reply != Refused;
    }

    /** Attempts every step, whatever the earlier ones answered, and reports every failure. */
    method Close(cancel: Reply, channelClose: Reply, connectionClose: Reply) returns (failures: nat)
      modifies this`subscription
      ensures subscription == Closed(old(subscription))
      ensures old(subscription).closed ==> failures == 0
      ensures !old(subscription).closed ==>
                failures == (if !old(subscription).stopped && cancel == Refused then 1 else 0)
                            + (if channelClose == Refused then 1 else 0)
                            + (if connectionClose == Refused then 1 else 0)
    {
      failures := 0;
      if subscription.closed {
        return;
      }
      subscription := subscription.(closed := true);
      if !subscription.stopped {
        subscription := subscription.(stopped := true, cancels := subscription.cancels + 1);
        if cancel == Refused {
          failures := failures + 1;
        }
      }
      subscription := subscription.(channelCloses := subscription.channelCloses + 1);
      if channelClose == Refused {
        failures := failures + 1;
      }
      subscription := subscription.(connectionCloses := subscription.connectionCloses + 1);
      if connectionClose == Refused {
        failures := failures + 1;
      }
    }
  }
}
