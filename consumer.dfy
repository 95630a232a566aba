/**
 * The consumer callback: the retry-escalation controller between the payment service and
 * the broker. The channel is an append-only log of what the callback did to it (publishes,
 * acks) and of the backoff pauses it took, in order.
 */
module Consumer {
  import opened Wrappers
  import opened Store
  import opened Payments

  /** Raw message bytes. */
  type Body = seq<bv8>

  /** Message headers; a message without headers has the empty map. */
  type Headers = map<string, nat>

  /** The header the callback reads and writes to count redeliveries. */
  const RetryHeader: string := "x-retry"

  datatype Queue = Intake | DeadLetter

  /** One thing the callback did on the channel, or the backoff pause it took. */
  datatype Action =
    | Publish(queue: Queue, body: Body, headers: Headers, persistent: bool)
    | Sleep(seconds: nat)
    | Ack(tag: nat)

  /** The retry count a delivery carries: its x-retry header, or 0 without one. */
  function RetryCount(headers: Headers): (n: nat)
    ensures RetryHeader in headers ==> n == headers[RetryHeader]
    ensures RetryHeader !in headers ==> n == 0
  {
    if RetryHeader in headers then headers[RetryHeader] else 0
  }

  /** `2 ** n`. */
  function Pow2(n: nat): (p: nat)
    ensures p >= 1
  {
    if n == 0 then 1 else 2 * Pow2(n - 1)
  }

  /** The backoff doubles from one retry to the next, so it strictly increases. */
  lemma {:induction false} Pow2StrictlyIncreasing(i: nat, j: nat)
    requires i < j
    ensures Pow2(i) < Pow2(j)
    decreases j
  {
    if i < j - 1 {
      Pow2StrictlyIncreasing(i, j - 1);
    }
  }

  /** Only the x-retry header counts: any other header, such as x-retry-count, is ignored. */
  lemma OtherHeadersIgnored(headers: Headers, name: string, value: nat)
    requires name != RetryHeader
    ensures RetryCount(headers[name := value]) == RetryCount(headers)
    ensures RetryCount(map[RetryHeader := value]) == value
  {
  }

  /** What the callback does with a delivery once the service has answered. */
  datatype Disposition =
    | AckOnly
    | Requeue(delay: nat, retry: nat)
    | DeadLetterIt

  /** The routing decision on the service's answer, the delivery's headers and the retry limit. */
  function Decide(result: ProcessResult, headers: Headers, limit: nat): (d: Disposition)
    ensures d.AckOnly? <==> result.IdempotentSkip? || result.PaymentSucceeded?
    ensures d.Requeue? <==> result.TransientError? && RetryCount(headers) < limit
    ensures d.DeadLetterIt? <==> result.PermanentError? || (result.TransientError? && RetryCount(headers) >= limit)
    ensures d.Requeue? ==> d.delay == Pow2(RetryCount(headers)) && d.retry == RetryCount(headers) + 1 && d.retry <= limit
  {
    match result
    case IdempotentSkip => AckOnly
    case PaymentSucceeded => AckOnly
    case TransientError(_) =>
      var retries := RetryCount(headers);
      if retries >= limit then DeadLetterIt else Requeue(Pow2(retries), retries + 1)
    case PermanentError(_) => DeadLetterIt
  }

  /** The publishes to `q` in `log`, in order. */
  function Sent(log: seq<Action>, q: Queue): seq<Action> {
    if log == [] then []
    else (if log[0].Publish? && log[0].queue == q then [log[0]] else []) + Sent(log[1..], q)
  }

  /** The backoff pauses in `log`, in order. */
  function Delays(log: seq<Action>): seq<nat> {
    if log == [] then [] else (if log[0].Sleep? then [log[0].seconds] else []) + Delays(log[1..])
  }

  /** The delivery tags acked in `log`, in order. */
  function Acks(log: seq<Action>): seq<nat> {
    if log == [] then [] else (if log[0].Ack? then [log[0].tag] else []) + Acks(log[1..])
  }

  lemma {:induction false} LogConcat(a: seq<Action>, b: seq<Action>)
    ensures Sent(a + b, Intake) == Sent(a, Intake) + Sent(b, Intake)
    ensures Sent(a + b, DeadLetter) == Sent(a, DeadLetter) + Sent(b, DeadLetter)
    ensures Delays(a + b) == Delays(a) + Delays(b)
    ensures Acks(a + b) == Acks(a) + Acks(b)
    decreases |a|
  {
    if a != [] {
      assert (a + b)[0] == a[0];
      assert (a + b)[1..] == a[1..] + b;
      LogConcat(a[1..], b);
    } else {
      assert a + b == b;
    }
  }

  /** The actions the callback appends to the channel for one delivery tagged `tag`. */
  function Actions(d: Disposition, body: Body, tag: nat): (acts: seq<Action>)
    // the delivery is acked exactly once, as the last action
    ensures |acts| > 0 && acts[|acts| - 1] == Ack(tag)
    ensures forall i :: 0 <= i < |acts| - 1 ==> !acts[i].Ack?
    // at most one publish, immediately before the ack
    ensures forall i :: 0 <= i < |acts| && acts[i].Publish? ==> i == |acts| - 2
    // settled deliveries are only acked
    ensures d.AckOnly? <==> |acts| == 1
    // a retry pauses for the backoff, then republishes the body, persistent, with the next retry count
    ensures d.Requeue? ==>
      |acts| == 3 && acts[0] == Sleep(d.delay) && acts[1] == Publish(Intake, body, map[RetryHeader := d.retry], true)
    // a dead-lettered delivery's body goes unchanged, without headers, to the dead-letter queue
    ensures d.DeadLetterIt? ==> |acts| == 2 && acts[0] == Publish(DeadLetter, body, map[], false)
  {
    match d
    case AckOnly => [Ack(tag)]
    case Requeue(delay, retry) => [Sleep(delay), Publish(Intake, body, map[RetryHeader := retry], true), Ack(tag)]
    case DeadLetterIt => [Publish(DeadLetter, body, map[], false), Ack(tag)]
  }

  /** What one delivery's actions contribute to the publishes, pauses and acks of the channel. */
  lemma ActionsProjections(d: Disposition, body: Body, tag: nat)
    ensures var acts := Actions(d, body, tag);
      && Acks(acts) == [tag]
      && Sent(acts, Intake) == (if d.Requeue? then [Publish(Intake, body, map[RetryHeader := d.retry], true)] else [])
      && Sent(acts, DeadLetter) == (if d.DeadLetterIt? then [Publish(DeadLetter, body, map[], false)] else [])
      && Delays(acts) == (if d.Requeue? then [d.delay] else [])
  {
    var acts := Actions(d, body, tag);
    var last := [Ack(tag)];
    assert last[1..] == [];
    assert Acks(last) == [tag];
    assert Sent(last, Intake) == [];
    assert Sent(last, DeadLetter) == [];
    assert Delays(last) == [];
    if d.Requeue? {
      assert acts == [acts[0]] + ([acts[1]] + last);
      LogConcat([acts[1]], last);
      LogConcat([acts[0]], [acts[1]] + last);
    } else if d.DeadLetterIt? {
      assert acts == [acts[0]] + last;
      LogConcat([acts[0]], last);
    }
  }

  /**
   * The consumer: the service it hands events to, the retry limit, and the channel log.
   */
  class MQConsumer {
    const service: PaymentService
    const retryLimit: nat
    var log: seq<Action>

    constructor (service: PaymentService, retryLimit: nat)
      ensures this.service == service && this.retryLimit == retryLimit && log == []
    {
      this.service := service;
      this.retryLimit := retryLimit;
      log := [];
    }

    /**
     * _callback for one delivery. `decoded` is what decoding `body` as JSON gave; decoding
     * happens before any error handling, so a body that does not decode raises out of the
     * callback (`handled` is false) with nothing published, nothing acked and the store untouched.
     */
    method Callback(body: Body, decoded: Option<Event>, headers: Headers, tag: nat, gateway: Outcome)
      returns (handled: bool)
      requires service.Valid()
      modifies this, service
      ensures service.Valid()
      ensures handled <==> decoded.Some?
      ensures !handled ==>
        log == old(log) && service.repo == old(service.repo) && service.Counters() == old(service.Counters())
      ensures handled ==>
        var p := Process(old(service.repo), decoded.value, gateway);
        service.repo == p.store
        && service.Counters() == Tally(old(service.Counters()), p.result)
        && log == old(log) + Actions(Decide(p.result, headers, retryLimit), body, tag)
    {
      if decoded.None? {
        return false;
      }
      var r := service.ProcessPayment(decoded.value, gateway);
      match r {
      case IdempotentSkip =>
        log := log + [Ack(tag)];
      case PaymentSucceeded =>
        log := log + [Ack(tag)];
      case TransientError(_) =>
        var retries := RetryCount(headers);
        if retries >= retryLimit {
          log := log + [Publish(DeadLetter, body, map[], false)];
        } else {
          var delay := Pow2(retries);
          log := log + [Sleep(delay)];
          log := log + [Publish(Intake, body, map[RetryHeader := retries + 1], true)];
        }
        log := log + [Ack(tag)];
      case PermanentError(_) =>
        log := log + [Publish(DeadLetter, body, map[], false)];
        log := log + [Ack(tag)];
      }
      handled := true;
    }
  }

  /** The dispositions and the channel log of a run of deliveries of one message. */
  datatype Retries = Retries(dispositions: seq<Disposition>, log: seq<Action>)

  /**
   * The callback's side of a message whose every delivery the service answers with a
   * transient error: from the delivery that carries `headers`, each republished copy comes
   * back with the headers it was published with and the channel's next delivery tag, until
   * the callback stops republishing it.
   */
  function RetryRun(body: Body, headers: Headers, tag: nat, limit: nat): Retries
    decreases limit - RetryCount(headers)
  {
    var d := Decide(TransientError(TransientMessage), headers, limit);
    var acts := Actions(d, body, tag);
    if d.Requeue? then
      var rest := RetryRun(body, map[RetryHeader := d.retry], tag + 1, limit);
      Retries([d] + rest.dispositions, acts + rest.log)
    else
      Retries([d], acts)
  }

  /**
   * The retry bound: a message that always fails transiently and arrives with retry count
   * `r <= limit` is requeued `limit - r` times, with retry counts r+1, ..., limit and
   * backoffs 2^r, ..., 2^(limit-1), and is then dead-lettered.
   */
  lemma {:induction false} TransientRetryBound(body: Body, headers: Headers, tag: nat, limit: nat)
    requires RetryCount(headers) <= limit
    ensures var run := RetryRun(body, headers, tag, limit);
      var r := RetryCount(headers);
      var n := limit - r;
      && |run.dispositions| == n + 1
      && (forall i :: 0 <= i < n ==> run.dispositions[i] == Requeue(Pow2(r + i), r + i + 1))
      && run.dispositions[n] == DeadLetterIt
    decreases limit - RetryCount(headers)
  {
    var r := RetryCount(headers);
    var d := Decide(TransientError(TransientMessage), headers, limit);
    if r < limit {
      var next := map[RetryHeader := d.retry];
      TransientRetryBound(body, next, tag + 1, limit);
      var rest := RetryRun(body, next, tag + 1, limit);
      var run := RetryRun(body, headers, tag, limit);
      assert run.dispositions == [d] + rest.dispositions;
      forall i | 0 <= i < limit - r ensures run.dispositions[i] == Requeue(Pow2(r + i), r + i + 1) {
        if i > 0 {
          assert run.dispositions[i] == rest.dispositions[i - 1];
        }
      }
    }
  }

  /** One step of a retry run: the log is this delivery's actions followed by the rest of the run. */
  lemma RetryRunStep(body: Body, headers: Headers, tag: nat, limit: nat)
    requires RetryCount(headers) < limit
    ensures var d := Decide(TransientError(TransientMessage), headers, limit);
      var acts := Actions(d, body, tag);
      var rest := RetryRun(body, map[RetryHeader := RetryCount(headers) + 1], tag + 1, limit);
      var log := RetryRun(body, headers, tag, limit).log;
      && log == acts + rest.log
      && Sent(log, Intake) == [Publish(Intake, body, map[RetryHeader := RetryCount(headers) + 1], true)] + Sent(rest.log, Intake)
      && Sent(log, DeadLetter) == Sent(rest.log, DeadLetter)
      && Delays(log) == [Pow2(RetryCount(headers))] + Delays(rest.log)
      && Acks(log) == [tag] + Acks(rest.log)
  {
    var d := Decide(TransientError(TransientMessage), headers, limit);
    var rest := RetryRun(body, map[RetryHeader := RetryCount(headers) + 1], tag + 1, limit);
    ActionsProjections(d, body, tag);
    LogConcat(Actions(d, body, tag), rest.log);
  }

  /** The last delivery of a retry run: dead-lettered, no republish, no pause, one ack. */
  lemma RetryRunLast(body: Body, headers: Headers, tag: nat, limit: nat)
    requires RetryCount(headers) >= limit
    ensures var log := RetryRun(body, headers, tag, limit).log;
      && Sent(log, Intake) == [] && Delays(log) == [] && Acks(log) == [tag]
      && Sent(log, DeadLetter) == [Publish(DeadLetter, body, map[], false)]
  {
    ActionsProjections(Decide(TransientError(TransientMessage), headers, limit), body, tag);
  }

  /**
   * What the channel sees of the same run: `limit - r` republishes to the intake queue with
   * x-retry r+1, ..., limit, persistent, then one publish of the unchanged body to the
   * dead-letter queue.
   */
  lemma {:induction false} TransientRepublishes(body: Body, headers: Headers, tag: nat, limit: nat)
    requires RetryCount(headers) <= limit
    ensures var log := RetryRun(body, headers, tag, limit).log;
      var r := RetryCount(headers);
      && |Sent(log, Intake)| == limit - r
      && (forall i :: 0 <= i < limit - r ==>
            Sent(log, Intake)[i] == Publish(Intake, body, map[RetryHeader := r + i + 1], true))
      && Sent(log, DeadLetter) == [Publish(DeadLetter, body, map[], false)]
    decreases limit - RetryCount(headers)
  {
    var r := RetryCount(headers);
    if r < limit {
      var next := map[RetryHeader := r + 1];
      assert RetryCount(next) == r + 1;
      TransientRepublishes(body, next, tag + 1, limit);
      RetryRunStep(body, headers, tag, limit);
      var sent := Sent(RetryRun(body, headers, tag, limit).log, Intake);
      var rest := Sent(RetryRun(body, next, tag + 1, limit).log, Intake);
      forall i | 0 <= i < limit - r
        ensures sent[i] == Publish(Intake, body, map[RetryHeader := r + i + 1], true)
      {
        if i > 0 {
          assert sent[i] == rest[i - 1];
          assert r + 1 + (i - 1) + 1 == r + i + 1;
        }
      }
    } else {
      RetryRunLast(body, headers, tag, limit);
    }
  }

  /** The backoff pauses of the run: 2^r, ..., 2^(limit-1), one before each republish. */
  lemma {:induction false} TransientBackoffs(body: Body, headers: Headers, tag: nat, limit: nat)
    requires RetryCount(headers) <= limit
    ensures var delays := Delays(RetryRun(body, headers, tag, limit).log);
      var r := RetryCount(headers);
      && |delays| == limit - r
      && (forall i :: 0 <= i < limit - r ==> delays[i] == Pow2(r + i))
    decreases limit - RetryCount(headers)
  {
    var r := RetryCount(headers);
    if r < limit {
      var next := map[RetryHeader := r + 1];
      TransientBackoffs(body, next, tag + 1, limit);
      RetryRunStep(body, headers, tag, limit);
      var delays := Delays(RetryRun(body, headers, tag, limit).log);
      var rest := Delays(RetryRun(body, next, tag + 1, limit).log);
      forall i | 0 <= i < limit - r ensures delays[i] == Pow2(r + i) {
        if i > 0 {
          assert delays[i] == rest[i - 1];
        }
      }
    } else {
      RetryRunLast(body, headers, tag, limit);
    }
  }

  /** Every delivery of the run is acked exactly once, in delivery order. */
  lemma {:induction false} TransientAcks(body: Body, headers: Headers, tag: nat, limit: nat)
    requires RetryCount(headers) <= limit
    ensures var acks := Acks(RetryRun(body, headers, tag, limit).log);
      && |acks| == limit - RetryCount(headers) + 1
      && (forall i :: 0 <= i < |acks| ==> acks[i] == tag + i)
    decreases limit - RetryCount(headers)
  {
    var r := RetryCount(headers);
    if r < limit {
      var next := map[RetryHeader := r + 1];
      TransientAcks(body, next, tag + 1, limit);
      RetryRunStep(body, headers, tag, limit);
      var acks := Acks(RetryRun(body, headers, tag, limit).log);
      var rest := Acks(RetryRun(body, next, tag + 1, limit).log);
      forall i | 0 <= i < |acks| ensures acks[i] == tag + i {
        if i > 0 {
          assert acks[i] == rest[i - 1];
        }
      }
    } else {
      RetryRunLast(body, headers, tag, limit);
    }
  }

  /** The backoffs of the run strictly increase from one retry to the next. */
  lemma BackoffStrictlyIncreases(body: Body, headers: Headers, tag: nat, limit: nat)
    requires RetryCount(headers) <= limit
    ensures var delays := Delays(RetryRun(body, headers, tag, limit).log);
      forall i, j :: 0 <= i < j < |delays| ==> delays[i] < delays[j]
  {
    TransientBackoffs(body, headers, tag, limit);
    var r := RetryCount(headers);
    var delays := Delays(RetryRun(body, headers, tag, limit).log);
    forall i, j | 0 <= i < j < |delays| ensures delays[i] < delays[j] {
      Pow2StrictlyIncreasing(r + i, r + j);
    }
  }

  /** The store, the counters, the dispositions and the channel log after a run of deliveries. */
  datatype Deliveries = Deliveries(store: Records, counters: Metrics, dispositions: seq<Disposition>, log: seq<Action>)

  /**
   * The whole pipeline for a message whose every payment attempt the gateway answers with a
   * transient failure: each delivery goes through the service (as the callback's contract
   * states) and then through the callback's decision, until the message is no longer republished.
   */
  function TransientDeliveries(store: Records, counters: Metrics, event: Event, body: Body,
                               headers: Headers, tag: nat, limit: nat): (run: Deliveries)
    requires !AlreadyCompleted(store, event.key)
    decreases limit - RetryCount(headers)
  {
    var p := Process(store, event, Transient);
    var d := Decide(p.result, headers, limit);
    var acts := Actions(d, body, tag);
    if d.Requeue? then
      var rest := TransientDeliveries(p.store, Tally(counters, p.result), event, body,
                                      map[RetryHeader := d.retry], tag + 1, limit);
      Deliveries(rest.store, rest.counters, [d] + rest.dispositions, acts + rest.log)
    else
      Deliveries(p.store, Tally(counters, p.result), [d], acts)
  }

  /**
   * In the pipeline every attempt of such a message fails transiently (a failed record is
   * never skipped), so the channel sees exactly the retry run above.
   */
  lemma {:induction false} PipelineFollowsRetryRun(store: Records, counters: Metrics, event: Event, body: Body,
                                                   headers: Headers, tag: nat, limit: nat)
    requires !AlreadyCompleted(store, event.key)
    ensures var run := TransientDeliveries(store, counters, event, body, headers, tag, limit);
      run.dispositions == RetryRun(body, headers, tag, limit).dispositions
      && run.log == RetryRun(body, headers, tag, limit).log
    decreases limit - RetryCount(headers)
  {
    var p := Process(store, event, Transient);
    assert p.result == TransientError(TransientMessage);
    var d := Decide(p.result, headers, limit);
    if d.Requeue? {
      PipelineFollowsRetryRun(p.store, Tally(counters, p.result), event, body, map[RetryHeader := d.retry], tag + 1, limit);
    }
  }

  /**
   * The same run seen in the store and the counters: every delivery is counted as consumed
   * and as a retry and adds one to the stored retry count, which ends `limit - r + 1` above
   * where it started (so at limit + 1 for a new key); the record ends FAILED and no other
   * record changes.
   */
  lemma {:induction false} TransientRetryRecord(store: Records, counters: Metrics, event: Event, body: Body,
                                                headers: Headers, tag: nat, limit: nat)
    requires !AlreadyCompleted(store, event.key)
    requires RetryCount(headers) <= limit
    ensures var run := TransientDeliveries(store, counters, event, body, headers, tag, limit);
      var n := limit - RetryCount(headers);
      && event.key in run.store
      && run.store[event.key].status == Failed
      && run.store[event.key].retryCount == Guarded(store, event).retryCount + n + 1
      && (forall k :: k in store && k != event.key ==> k in run.store && run.store[k] == store[k])
      && run.counters == Metrics(counters.consumed + n + 1, counters.successful, counters.failed, counters.retries + n + 1)
    decreases limit - RetryCount(headers)
  {
    var r := RetryCount(headers);
    var p := Process(store, event, Transient);
    var d := Decide(p.result, headers, limit);
    if r < limit {
      var next := map[RetryHeader := d.retry];
      var c := Tally(counters, p.result);
      TransientRetryRecord(p.store, c, event, body, next, tag + 1, limit);
      assert Guarded(p.store, event) == p.store[event.key];
    }
  }

  /**
   * A new payment whose every attempt fails transiently, with a retry limit of 3: republished
   * after pauses of 1, 2 and 4 seconds with x-retry 1, 2 and 3, then dead-lettered on its
   * fourth delivery, which leaves its record FAILED with a retry count of 4.
   */
  lemma LimitThreeScenario(event: Event, body: Body)
    ensures var run := TransientDeliveries(map[], Metrics(0, 0, 0, 0), event, body, map[], 0, 3);
      && Delays(run.log) == [1, 2, 4]
      && Sent(run.log, Intake) == [Publish(Intake, body, map[RetryHeader := 1], true),
                                   Publish(Intake, body, map[RetryHeader := 2], true),
                                   Publish(Intake, body, map[RetryHeader := 3], true)]
      && Sent(run.log, DeadLetter) == [Publish(DeadLetter, body, map[], false)]
      && Acks(run.log) == [0, 1, 2, 3]
      && event.key in run.store
      && run.store[event.key].status == Failed && run.store[event.key].retryCount == 4
      && run.counters == Metrics(4, 0, 0, 4)
  {
    var store: Records := map[];
    var headers: Headers := map[];
    PipelineFollowsRetryRun(store, Metrics(0, 0, 0, 0), event, body, headers, 0, 3);
    TransientRetryRecord(store, Metrics(0, 0, 0, 0), event, body, headers, 0, 3);
    TransientRepublishes(body, headers, 0, 3);
    TransientBackoffs(body, headers, 0, 3);
    TransientAcks(body, headers, 0, 3);
    assert Pow2(1) == 2 && Pow2(2) == 4;
  }
}
