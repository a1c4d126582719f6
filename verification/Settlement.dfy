/** settlement.go and consumer.go:537-555: what a handler may request and what the requeue bound lets through. */
module Settlement {
  import opened Basics
  import QueuePolicy

  datatype Method = Acknowledge | NegativeAcknowledge | Reject | Delegate | Unknown

  datatype Request = Request(way: Method, requeue: bool)

  datatype Policy = Policy(queue: QueuePolicy.QueueType, maxRequeues: nat, failure: Request)

  /** The broker state a delivery carries. */
  datatype Stamp = Stamp(redelivered: bool, acquired: Option<nat>, deliveryCount: Option<nat>)

  predicate ValidRequest(r: Request) {
    match r.way
    case Acknowledge => !r.requeue
    case Delegate => !r.requeue
    case NegativeAcknowledge => true
    case Reject => true
    case Unknown => false
  }

  /** The part of the consumer configuration's validation that concerns settlement. */
  predicate ValidPolicy(p: Policy) {
    ValidRequest(p.failure) && p.failure.way != Acknowledge && p.failure.way != Delegate
  }

  function Bounded(stamp: Stamp, r: Request, p: Policy): Request {
    if !r.requeue then r
    else if p.maxRequeues == 0 then r.(requeue := false)
    else if p.queue.Quorum? && stamp.acquired.Some? then r.(requeue := stamp.acquired.value < p.maxRequeues)
    else if r.way.NegativeAcknowledge? && stamp.redelivered then r.(requeue := false)
    else if p.queue.Quorum? && r.way.Reject? && stamp.deliveryCount.Some? then
      r.(requeue := stamp.deliveryCount.value < p.maxRequeues)
    else r.(requeue := !stamp.redelivered)
  }

  /** One handler invocation: its answer, and whether it failed or its context expired. */
  datatype Attempt = Attempt(stamp: Stamp, failed: bool, expired: bool, answer: Request)

  /** The request handle acts on. */
  function Requested(a: Attempt, p: Policy): Request {
    if a.failed || a.expired || !ValidRequest(a.answer) then p.failure else a.answer
  }

  /** The settlement handle issues; None when the delivery is delegated. */
  function Issued(a: Attempt, p: Policy): Option<Request> {
    if Requested(a, p).way.Delegate? then None else Some(Bounded(a.stamp, Requested(a, p), p))
  }

  predicate Requeued(a: Attempt, p: Policy) {
    Issued(a, p).Some? && Issued(a, p).value.requeue
  }

  function Requeues(h: seq<Attempt>, p: Policy): nat {
    if h == [] then 0
    else Requeues(h[..|h| - 1], p) + if Requeued(h[|h| - 1], p) then 1 else 0
  }

  /** The bound clears the requeue flag or leaves the request alone; what is issued is always a valid settlement. */
  lemma IssuedIsValid(a: Attempt, p: Policy)
    requires ValidPolicy(p)
    ensures Issued(a, p).Some? ==>
      ValidRequest(Issued(a, p).value) && !Issued(a, p).value.way.Delegate? &&
      (Issued(a, p).value == Requested(a, p) || Issued(a, p).value == Requested(a, p).(requeue := false))
    ensures Issued(a, p).None? ==> a.answer == Request(Delegate, false) && !a.failed && !a.expired
    ensures Requeued(a, p) ==> Requested(a, p).way.NegativeAcknowledge? || Requested(a, p).way.Reject?
  {
  }

  /** The handler finished in time with a settlement the client accepts. */
  predicate Sound(a: Attempt) {
    !a.failed && !a.expired && ValidRequest(a.answer)
  }

  /** The call on the delivery's channel. */
  datatype ChannelCall = AckCall | NackCall(requeue: bool) | RejectCall(requeue: bool)

  /** applySettlement; None when nothing is sent. */
  function Call(a: Attempt, p: Policy): Option<ChannelCall> {
    match Issued(a, p)
    case None => None
    case Some(r) =>
      match r.way
      case Acknowledge => Some(AckCall)
      case NegativeAcknowledge => Some(NackCall(r.requeue))
      case Reject => Some(RejectCall(r.requeue))
      case Delegate => None
      case Unknown => None
  }

  function WayOf(c: ChannelCall): Method {
    match c
    case AckCall => Acknowledge
    case NackCall(_) => NegativeAcknowledge
    case RejectCall(_) => Reject
  }

  predicate AsksAgain(c: ChannelCall) {
    !c.AckCall? && c.requeue
  }

  /**
    The channel sees what the handler answered: an acknowledgement is acked, a delegation sends nothing, and otherwise
    the handler's own way is used with at most its own requeue; a failed, late or invalid answer uses the failure
    policy's way with at most its requeue.
   */
  lemma HandlerDecides(a: Attempt, p: Policy)
    requires ValidPolicy(p)
    ensures Sound(a) && a.answer.way.Acknowledge? ==> Call(a, p) == Some(AckCall)
    ensures Call(a, p).None? <==> Sound(a) && a.answer.way.Delegate?
    ensures Sound(a) && !a.answer.way.Delegate? ==>
      WayOf(Call(a, p).value) == a.answer.way && (AsksAgain(Call(a, p).value) ==> a.answer.requeue)
    ensures !Sound(a) ==>
      WayOf(Call(a, p).value) == p.failure.way && (AsksAgain(Call(a, p).value) ==> p.failure.requeue)
  {
  }

  /** What the handler or, in its place, the failure policy asks for. */
  predicate AsksRequeue(a: Attempt, p: Policy, way: Method) {
    if Sound(a) then a.answer == Request(way, true) else p.failure == Request(way, true)
  }

  /**
    Exactly when a requested requeue is granted: never with a zero bound; on a quorum queue by the acquired count if
    there is one, and for rejections otherwise by the delivery count if there is one; in all other cases once only.
   */
  lemma RequeueGrantedIff(a: Attempt, p: Policy, way: Method)
    requires ValidPolicy(p) && AsksRequeue(a, p, way)
    ensures p.maxRequeues == 0 ==> !Requeued(a, p)
    ensures p.maxRequeues > 0 && p.queue.Quorum? && a.stamp.acquired.Some? ==>
      (Requeued(a, p) <==> a.stamp.acquired.value < p.maxRequeues)
    ensures p.maxRequeues > 0 && p.queue.Quorum? && a.stamp.acquired.None? && way.Reject? && a.stamp.deliveryCount.Some? ==>
      (Requeued(a, p) <==> a.stamp.deliveryCount.value < p.maxRequeues)
    ensures p.maxRequeues > 0 &&
            (!p.queue.Quorum? ||
             (a.stamp.acquired.None? && (way.NegativeAcknowledge? || a.stamp.deliveryCount.None?))) ==>
      (Requeued(a, p) <==> !a.stamp.redelivered)
    ensures Requeued(a, p) <==> Call(a, p).Some? && AsksAgain(Call(a, p).value)
  {
  }

  // ---------------------------------------------------------------- one message over all its deliveries

  /** The broker stamps each delivery with an acquired count covering the earlier requeues. */
  predicate AcquiredCovers(h: seq<Attempt>, p: Policy) {
    forall k | 0 <= k < |h| :: h[k].stamp.acquired.Some? && h[k].stamp.acquired.value >= Requeues(h[..k], p)
  }

  lemma {:induction false} QuorumRequeueBound(h: seq<Attempt>, p: Policy)
    requires ValidPolicy(p) && p.queue.Quorum? && AcquiredCovers(h, p)
    ensures Requeues(h, p) <= p.maxRequeues
  {
    if h != [] {
      var n := |h| - 1;
      assert forall k | 0 <= k < n :: h[..n][..k] == h[..k];
      QuorumRequeueBound(h[..n], p);
      IssuedIsValid(h[n], p);
      assert h[n].stamp.acquired.value >= Requeues(h[..n], p);
    }
  }

  /** No counters reach the policy, and a requeued message comes back flagged. */
  predicate FlagOnly(h: seq<Attempt>, p: Policy) {
    forall k | 0 <= k < |h| ::
      && (p.queue.Quorum? ==> h[k].stamp.acquired.None? && h[k].stamp.deliveryCount.None?)
      && (Requeues(h[..k], p) > 0 ==> h[k].stamp.redelivered)
  }

  lemma {:induction false} FlagRequeueBound(h: seq<Attempt>, p: Policy)
    requires ValidPolicy(p) && FlagOnly(h, p)
    ensures Requeues(h, p) <= 1 && Requeues(h, p) <= p.maxRequeues
  {
    if h != [] {
      var n := |h| - 1;
      assert forall k | 0 <= k < n :: h[..n][..k] == h[..k];
      FlagRequeueBound(h[..n], p);
      IssuedIsValid(h[n], p);
      assert Requeues(h[..n], p) > 0 ==> h[n].stamp.redelivered;
    }
  }

  lemma {:induction false} ZeroNeverRequeues(h: seq<Attempt>, p: Policy)
    requires ValidPolicy(p) && p.maxRequeues == 0
    ensures Requeues(h, p) == 0
  {
    if h != [] {
      ZeroNeverRequeues(h[..|h| - 1], p);
    }
  }

  // ---------------------------------------------------------------- delivery counts without acquired counts

  function RejectRequeues(h: seq<Attempt>, p: Policy): nat {
    if h == [] then 0
    else
      RejectRequeues(h[..|h| - 1], p) +
      if Requeued(h[|h| - 1], p) && Requested(h[|h| - 1], p).way.Reject? then 1 else 0
  }

  /**
    A quorum queue that reports only the failed-delivery count: it covers the earlier rejections but not the
    negative acknowledgements; any requeue sets the flag.
   */
  predicate CountCoversRejections(h: seq<Attempt>, p: Policy) {
    forall k | 0 <= k < |h| ::
      && h[k].stamp.acquired.None? && h[k].stamp.deliveryCount.Some?
      && h[k].stamp.deliveryCount.value >= RejectRequeues(h[..k], p)
      && (Requeues(h[..k], p) > 0 ==> h[k].stamp.redelivered)
  }

  predicate NeverNegative(h: seq<Attempt>, p: Policy) {
    forall k | 0 <= k < |h| :: !Requested(h[k], p).way.NegativeAcknowledge?
  }

  /** Without an acquired count, negative acknowledgements need an unflagged delivery and rejections a free count. */
  lemma RequeueNeeds(a: Attempt, p: Policy)
    requires ValidPolicy(p) && p.queue.Quorum? && a.stamp.acquired.None? && a.stamp.deliveryCount.Some?
    requires Requeued(a, p)
    ensures p.maxRequeues > 0
    ensures Requested(a, p).way.Reject? || (Requested(a, p).way.NegativeAcknowledge? && !a.stamp.redelivered)
    ensures Requested(a, p).way.Reject? ==> a.stamp.deliveryCount.value < p.maxRequeues
  {
  }

  /**
    Without acquired counts one negative acknowledgement may add a single requeue to those the rejections get, so
    the configured bound can be exceeded by at most one; without negative acknowledgements it holds.
   */
  lemma {:induction false} MixedRequeueBound(h: seq<Attempt>, p: Policy)
    requires ValidPolicy(p) && p.queue.Quorum? && CountCoversRejections(h, p)
    ensures RejectRequeues(h, p) <= p.maxRequeues
    ensures RejectRequeues(h, p) <= Requeues(h, p) <= RejectRequeues(h, p) + 1
    ensures NeverNegative(h, p) || p.maxRequeues == 0 ==> Requeues(h, p) == RejectRequeues(h, p)
  {
    if h != [] {
      var n := |h| - 1;
      assert forall k | 0 <= k < n :: h[..n][k] == h[k] && h[..n][..k] == h[..k];
      MixedRequeueBound(h[..n], p);
      if Requeued(h[n], p) {
        RequeueNeeds(h[n], p);
      }
      assert NeverNegative(h, p) ==> NeverNegative(h[..n], p);
    }
  }

  /** A negative acknowledgement first, then rejections, with the counts a broker would stamp. */
  function Excess(n: nat): seq<Attempt> {
    seq(n, k => Attempt(Stamp(k > 0, None, Some(if k <= 0 then 0 else k - 1 as nat)), false, false,
                        Request(if k == 0 then NegativeAcknowledge else Reject, true)))
  }

  lemma {:induction false} ExcessCounts(n: nat, p: Policy)
    requires p.queue.Quorum? && 1 <= p.maxRequeues && n <= p.maxRequeues + 1
    ensures Requeues(Excess(n), p) == n && RejectRequeues(Excess(n), p) == if n == 0 then 0 else n - 1
  {
    if n > 0 {
      ExcessCounts(n - 1, p);
      assert Excess(n)[..n - 1] == Excess(n - 1);
    }
  }

  /** For every positive bound some history that a broker without acquired counts can produce exceeds it. */
  lemma BoundExceededWithoutAcquiredCounts(p: Policy)
    requires ValidPolicy(p) && p.queue.Quorum? && p.maxRequeues >= 1
    ensures CountCoversRejections(Excess(p.maxRequeues + 1), p)
    ensures Requeues(Excess(p.maxRequeues + 1), p) == p.maxRequeues + 1
  {
    var h := Excess(p.maxRequeues + 1);
    ExcessCounts(|h|, p);
    forall k | 0 <= k < |h|
      ensures RejectRequeues(h[..k], p) == if k == 0 then 0 else k - 1
      ensures Requeues(h[..k], p) == k
    {
      assert h[..k] == Excess(k);
      ExcessCounts(k, p);
    }
  }

  // ---------------------------------------------------------------- exactly when the bound holds

  /** Handlers and the failure policy ask for a requeueing negative acknowledgement, or rejection, only if allowed. */
  predicate Uses(h: seq<Attempt>, p: Policy, negative: bool, reject: bool) {
    forall k | 0 <= k < |h| && Requested(h[k], p).requeue ::
      && (Requested(h[k], p).way.NegativeAcknowledge? ==> negative)
      && (Requested(h[k], p).way.Reject? ==> reject)
  }

  lemma {:induction false} WithoutRejections(h: seq<Attempt>, p: Policy)
    requires ValidPolicy(p) && Uses(h, p, true, false)
    ensures RejectRequeues(h, p) == 0
  {
    if h != [] {
      var n := |h| - 1;
      assert forall k | 0 <= k < n :: h[..n][k] == h[k];
      WithoutRejections(h[..n], p);
      assert Requeued(h[n], p) ==> Requested(h[n], p).requeue;
    }
  }

  lemma {:induction false} WithoutNegatives(h: seq<Attempt>, p: Policy)
    requires ValidPolicy(p) && Uses(h, p, false, true)
    ensures Requeues(h, p) == RejectRequeues(h, p)
  {
    if h != [] {
      var n := |h| - 1;
      assert forall k | 0 <= k < n :: h[..n][k] == h[k];
      WithoutNegatives(h[..n], p);
      if Requeued(h[n], p) {
        IssuedIsValid(h[n], p);
        assert Requested(h[n], p).requeue;
      }
    }
  }

  lemma ExcessUsesBoth(n: nat, p: Policy)
    requires ValidPolicy(p)
    ensures Uses(Excess(n), p, true, true)
  {
  }

  ghost predicate BoundHolds(p: Policy, negative: bool, reject: bool) {
    forall h :: CountCoversRejections(h, p) && Uses(h, p, negative, reject) ==> Requeues(h, p) <= p.maxRequeues
  }

  /**
    On a quorum queue without acquired counts the configured bound holds for every history if and only if it is zero,
    or handlers and the failure policy requeue in one way only.
   */
  lemma BoundHoldsIffOneWay(p: Policy, negative: bool, reject: bool)
    requires ValidPolicy(p) && p.queue.Quorum?
    ensures BoundHolds(p, negative, reject) <==> p.maxRequeues == 0 || !negative || !reject
  {
    if p.maxRequeues == 0 || !negative || !reject {
      forall h | CountCoversRejections(h, p) && Uses(h, p, negative, reject)
        ensures Requeues(h, p) <= p.maxRequeues
      {
        MixedRequeueBound(h, p);
        if p.maxRequeues > 0 {
          if reject {
            WithoutNegatives(h, p);
          } else {
            WithoutRejections(h, p);
          }
        }
      }
    } else {
      var h := Excess(p.maxRequeues + 1);
      BoundExceededWithoutAcquiredCounts(p);
      ExcessUsesBoth(p.maxRequeues + 1, p);
      assert CountCoversRejections(h, p) && Uses(h, p, negative, reject) && Requeues(h, p) > p.maxRequeues;
    }
  }
}

/** delivery_settlement.go: the once-guarded result that copies of a delivery share, and the waits for it. */
module SettlementResult {
  import opened Basics

  datatype Error = ContextRequired | ResultUnavailable | ConsumerUnavailable | Cancelled | DeadlineExceeded

  class Shared {
    var done: bool
    var err: Option<Error>

    constructor ()
      ensures !done
    {
      done, err := false, None;
    }

    /** The first completion decides; later ones change nothing. */
    method Complete(result: Option<Error>)
      modifies this
      ensures done
      ensures err == if old(done) then old(err) else result
    {
      if !done {
        done := true;
        err := result;
      }
    }
  }

  /** Whatever completions follow the first one, the result stays the first one's. */
  method CompleteAll(s: Shared, results: seq<Option<Error>>)
    requires !s.done
    modifies s
    ensures s.done <==> results != []
    ensures results != [] ==> s.err == results[0]
  {
    for k := 0 to |results|
      invariant s.done <==> k > 0
      invariant k > 0 ==> s.err == results[0]
    {
      s.Complete(results[k]);
    }
  }

  // ---------------------------------------------------------------- waits

  /** Where one AwaitSettlement call is. */
  datatype Wait =
    | Refused(error: Error)      // no context, or a delivery without a shared result
    | Polling                    // before the first look at the result
    | Blocked                    // in the select over result and context
    | Woken(context: Error)      // the context won the select, before the last look
    | Returned(result: Option<Error>)

  /** The shared result, None until completed, and any number of waits. */
  datatype State = State(shared: Option<Option<Error>>, waits: seq<Wait>)

  datatype Step =
    | Completes(result: Option<Error>)
    | Starts(hasContext: bool, tracked: bool)
    | Looks(i: nat)              // a poll, the result branch of the select, or the last look
    | ContextEnds(i: nat, context: Error)

  function Init(): State {
    State(None, [])
  }

  function Started(hasContext: bool, tracked: bool): Wait {
    if !hasContext then Refused(ContextRequired) else if !tracked then Refused(ResultUnavailable) else Polling
  }

  function Looked(s: State, w: Wait): Option<Wait> {
    match w
    case Polling => Some(if s.shared.Some? then Returned(s.shared.value) else Blocked)
    case Blocked => if s.shared.Some? then Some(Returned(s.shared.value)) else None
    case Woken(context) => Some(Returned(if s.shared.Some? then s.shared.value else Some(context)))
    case _ => None
  }

  function Next(s: State, step: Step): Option<State> {
    match step
    case Completes(result) => Some(if s.shared.Some? then s else s.(shared := Some(result)))
    case Starts(hasContext, tracked) => Some(s.(waits := s.waits + [Started(hasContext, tracked)]))
    case Looks(i) =>
      if i < |s.waits| && Looked(s, s.waits[i]).Some? then Some(s.(waits := s.waits[i := Looked(s, s.waits[i]).value]))
      else None
    case ContextEnds(i, context) =>
      if i < |s.waits| && s.waits[i].Blocked? then Some(s.(waits := s.waits[i := Woken(context)])) else None
  }

  function From(s: State, steps: seq<Step>): Option<State> {
    if steps == [] then Some(s)
    else
      var before := From(s, steps[..|steps| - 1]);
      if before.None? then None else Next(before.value, steps[|steps| - 1])
  }

  /** Step `k` is the first completion of the run. */
  predicate FirstCompletion(steps: seq<Step>, k: nat) {
    k < |steps| && steps[k].Completes? && forall j | 0 <= j < k :: !steps[j].Completes?
  }

  /** Over every run the shared result is open without a completion, and otherwise the first completion's. */
  lemma {:induction false} SharedIsFirstCompletion(steps: seq<Step>)
    requires From(Init(), steps).Some?
    ensures From(Init(), steps).value.shared.None? ==> forall k | 0 <= k < |steps| :: !steps[k].Completes?
    ensures From(Init(), steps).value.shared.Some? ==>
      exists k: nat :: FirstCompletion(steps, k) && From(Init(), steps).value.shared == Some(steps[k].result)
  {
    if steps != [] {
      var n := |steps| - 1;
      SharedIsFirstCompletion(steps[..n]);
      assert forall k | 0 <= k < n :: steps[..n][k] == steps[k];
      if From(Init(), steps[..n]).value.shared.Some? {
        var k: nat :| FirstCompletion(steps[..n], k) && From(Init(), steps[..n]).value.shared == Some(steps[..n][k].result);
        assert FirstCompletion(steps, k);
      } else if steps[n].Completes? {
        assert FirstCompletion(steps, n);
      }
    }
  }

  lemma {:induction false} ResultIsPermanent(s: State, steps: seq<Step>)
    requires s.shared.Some? && From(s, steps).Some?
    ensures From(s, steps).value.shared == s.shared && |s.waits| <= |From(s, steps).value.waits|
  {
    if steps != [] {
      ResultIsPermanent(s, steps[..|steps| - 1]);
    }
  }

  /**
    Once the result is complete, every wait that was still running then or starts later returns exactly it, however
    contexts end and whatever completions follow.
   */
  lemma {:induction false} EveryLaterWaitReturnsTheResult(s: State, steps: seq<Step>, i: nat)
    requires s.shared.Some? && From(s, steps).Some? && i < |From(s, steps).value.waits|
    requires i < |s.waits| ==> !s.waits[i].Returned?
    ensures From(s, steps).value.waits[i].Returned? ==> From(s, steps).value.waits[i].result == s.shared.value
  {
    if steps != [] {
      var n := |steps| - 1;
      ResultIsPermanent(s, steps[..n]);
      if i < |From(s, steps[..n]).value.waits| {
        EveryLaterWaitReturnsTheResult(s, steps[..n], i);
      }
    }
  }

  /** A completed result never leaves a wait blocked. */
  lemma CompletedResultUnblocks(s: State, i: nat)
    requires s.shared.Some? && i < |s.waits| && (s.waits[i].Polling? || s.waits[i].Blocked? || s.waits[i].Woken?)
    ensures Next(s, Looks(i)).Some? && Next(s, Looks(i)).value.waits[i] == Returned(s.shared.value)
  {
  }
}
