/**
 * The payment service: the idempotency guard and the outcome state machine of one
 * payment attempt over the transaction store, with the four metrics counters.
 *
 * The outcome of the payment gateway is an input: it stands for the two random draws
 * of the simulation (a first draw that signals a transient failure, then a second one
 * that signals a permanent failure). The 0.1 s processing pause is not modelled.
 */
module Payments {
  import opened Wrappers
  import opened Store

  /** The test-only failure-simulation flags of an event's metadata (absent means false). */
  datatype Metadata = Metadata(simulateTransient: bool, simulatePermanent: bool)

  /** A decoded payment-initiation event. */
  datatype Event = Event(key: string, amount: real, currency: string, userId: string, metadata: Metadata)

  /** What the payment gateway answered. */
  datatype Outcome = Success | Transient | Permanent

  /** What process_payment returns ("IDEMPOTENT_SKIP", "SUCCESS") or raises. */
  datatype ProcessResult =
    | IdempotentSkip
    | PaymentSucceeded
    | TransientError(message: string)
    | PermanentError(message: string)

  const TransientMessage: string := "Temporary payment gateway issue"
  const PermanentMessage: string := "Invalid card details"

  /** The four counters: messages consumed, payments successful, payments failed, retries. */
  datatype Metrics = Metrics(consumed: nat, successful: nat, failed: nat, retries: nat)

  /**
   * The outcome of the attempt: the simulation flags are checked before the gateway's
   * answer, and the transient check comes before the permanent one.
   */
  function Classify(metadata: Metadata, gateway: Outcome): (o: Outcome)
    ensures o == Transient <==> metadata.simulateTransient || gateway.Transient?
    ensures o == Success <==> !metadata.simulateTransient && !metadata.simulatePermanent && gateway == Success
    ensures o == Permanent <==>
      !metadata.simulateTransient && !gateway.Transient? && (metadata.simulatePermanent || gateway.Permanent?)
    ensures !metadata.simulateTransient && !metadata.simulatePermanent ==> o == gateway
  {
    if metadata.simulateTransient || gateway.Transient? then Transient
    else if metadata.simulatePermanent || gateway.Permanent? then Permanent
    else Success
  }

  /** The record created on the first sighting of a key. */
  function NewRecord(event: Event): (r: Record)
    ensures r.key == event.key && r.amount == event.amount && r.currency == event.currency && r.userId == event.userId
    ensures r.status == Processing && r.retryCount == 0 && r.lastError == None
  {
    Record(event.key, event.amount, event.currency, event.userId, Processing, 0, None)
  }

  /** The key's record is COMPLETED: a further event with that key is skipped. */
  predicate AlreadyCompleted(store: Records, key: string) {
    key in store && store[key].status == Completed
  }

  /** The key's record as it stands once the idempotency guard has let the event through. */
  function Guarded(store: Records, event: Event): Record {
    if event.key in store then store[event.key] else NewRecord(event)
  }

  datatype Processed = Processed(result: ProcessResult, store: Records)

  /**
   * process_payment on the store, as a value: what it returns or raises, and the store afterwards.
   */
  function Process(store: Records, event: Event, gateway: Outcome): (o: Processed)
    // idempotency guard
    ensures o.result == IdempotentSkip <==> AlreadyCompleted(store, event.key)
    ensures o.result == IdempotentSkip ==> o.store == store
    // only the event's key is touched, and it is present afterwards
    ensures o.store.Keys == store.Keys + {event.key}
    ensures forall k :: k in store && k != event.key ==> o.store[k] == store[k]
    ensures Keyed(store) ==> Keyed(o.store)
    ensures o.result != IdempotentSkip ==> SamePayment(o.store[event.key], Guarded(store, event))
    // success
    ensures o.result == PaymentSucceeded <==> !AlreadyCompleted(store, event.key) && Classify(event.metadata, gateway) == Success
    ensures o.result == PaymentSucceeded ==>
      var rec := o.store[event.key];
      rec.status == Completed && rec.retryCount == Guarded(store, event).retryCount
      && rec.lastError == Guarded(store, event).lastError
    // transient failure
    ensures o.result.TransientError? <==> !AlreadyCompleted(store, event.key) && Classify(event.metadata, gateway) == Transient
    ensures o.result.TransientError? ==>
      var rec := o.store[event.key];
      o.result.message == TransientMessage && rec.status == Failed
      && rec.retryCount == (if event.key in store then store[event.key].retryCount + 1 else 1)
      && rec.lastError == Some(TransientMessage)
    // permanent failure
    ensures o.result.PermanentError? <==> !AlreadyCompleted(store, event.key) && Classify(event.metadata, gateway) == Permanent
    ensures o.result.PermanentError? ==>
      var rec := o.store[event.key];
      o.result.message == PermanentMessage && rec.status == Failed
      && rec.retryCount == Guarded(store, event).retryCount && rec.lastError == Some(PermanentMessage)
  {
    var key := event.key;
    var existing := Find(store, key);
    if existing.Some? && existing.value.status == Completed then
      Processed(IdempotentSkip, store)
    else
      var created := if existing.None? then Create(store, NewRecord(event)).value else store;
      match Classify(event.metadata, gateway)
      case Success =>
        Processed(PaymentSucceeded, Update(created, key, Patch(Some(Completed), None, None)))
      case Transient =>
        var retryCount := if existing.Some? then existing.value.retryCount + 1 else 1;
        Processed(TransientError(TransientMessage),
          Update(created, key, Patch(Some(Failed), Some(retryCount), Some(Some(TransientMessage)))))
      case Permanent =>
        Processed(PermanentError(PermanentMessage),
          Update(created, key, Patch(Some(Failed), None, Some(Some(PermanentMessage)))))
  }

  /**
   * The counters after one call that ended with `r`: every call is counted as consumed, and
   * each outcome other than the skip moves exactly one of the other three counters, by one.
   */
  function Tally(m: Metrics, r: ProcessResult): (t: Metrics)
    ensures t.consumed == m.consumed + 1
    ensures t.successful + t.failed + t.retries == m.successful + m.failed + m.retries + (if r.IdempotentSkip? then 0 else 1)
    ensures t.successful >= m.successful && t.failed >= m.failed && t.retries >= m.retries
    ensures t.successful > m.successful <==> r.PaymentSucceeded?
    ensures t.failed > m.failed <==> r.PermanentError?
    ensures t.retries > m.retries <==> r.TransientError?
  {
    Metrics(m.consumed + 1,
      if r.PaymentSucceeded? then m.successful + 1 else m.successful,
      if r.PermanentError? then m.failed + 1 else m.failed,
      if r.TransientError? then m.retries + 1 else m.retries)
  }

  /** One delivery of an event to the service, with the gateway's answer for it. */
  datatype Attempt = Attempt(event: Event, gateway: Outcome)

  /** The store after processing `attempts` in order. */
  function Run(store: Records, attempts: seq<Attempt>): (s: Records)
    ensures store.Keys <= s.Keys
    ensures Keyed(store) ==> Keyed(s)
    decreases |attempts|
  {
    if attempts == [] then store
    else Run(Process(store, attempts[0].event, attempts[0].gateway).store, attempts[1..])
  }

  /** COMPLETED is terminal: no later attempt, for any key, changes a completed record. */
  lemma {:induction false} CompletedIsTerminal(store: Records, attempts: seq<Attempt>, key: string)
    requires AlreadyCompleted(store, key)
    ensures key in Run(store, attempts) && Run(store, attempts)[key] == store[key]
    decreases |attempts|
  {
    if attempts != [] {
      var next := Process(store, attempts[0].event, attempts[0].gateway).store;
      assert next[key] == store[key];
      CompletedIsTerminal(next, attempts[1..], key);
    }
  }

  /** Replaying a completed key any number of times leaves the whole store as it was. */
  lemma {:induction false} ReplayOfCompletedKeyIsNoOp(store: Records, attempts: seq<Attempt>, key: string)
    requires AlreadyCompleted(store, key)
    requires forall i :: 0 <= i < |attempts| ==> attempts[i].event.key == key
    ensures Run(store, attempts) == store
    decreases |attempts|
  {
    if attempts != [] {
      assert Process(store, attempts[0].event, attempts[0].gateway).store == store;
      ReplayOfCompletedKeyIsNoOp(store, attempts[1..], key);
    }
  }

  /** A stored record's retry count never goes down, whatever is processed afterwards. */
  lemma {:induction false} RetryCountNeverDecreases(store: Records, attempts: seq<Attempt>, key: string)
    requires key in store
    ensures key in Run(store, attempts) && Run(store, attempts)[key].retryCount >= store[key].retryCount
    decreases |attempts|
  {
    if attempts != [] {
      var next := Process(store, attempts[0].event, attempts[0].gateway).store;
      assert next[key].retryCount >= store[key].retryCount;
      RetryCountNeverDecreases(next, attempts[1..], key);
    }
  }

  /**
   * The service: the repository it writes and the counters it increments. `Valid` is the
   * store's own invariant, that every record sits under its key.
   */
  class PaymentService {
    var repo: Records
    var messagesConsumed: nat
    var paymentsSuccessful: nat
    var paymentsFailed: nat
    var retriesTotal: nat

    ghost predicate Valid()
      reads this
    {
      Keyed(repo)
    }

    function Counters(): Metrics
      reads this
    {
      Metrics(messagesConsumed, paymentsSuccessful, paymentsFailed, retriesTotal)
    }

    constructor (repo: Records)
      requires Keyed(repo)
      ensures Valid() && this.repo == repo && Counters() == Metrics(0, 0, 0, 0)
    {
      this.repo := repo;
      messagesConsumed, paymentsSuccessful, paymentsFailed, retriesTotal := 0, 0, 0, 0;
    }

    /** process_payment: guard, create on first sight, then record the gateway's outcome. */
    method ProcessPayment(event: Event, gateway: Outcome) returns (r: ProcessResult)
      requires Valid()
      modifies this
      ensures Valid()
      ensures Processed(r, repo) == Process(old(repo), event, gateway)
      ensures Counters() == Tally(old(Counters()), r)
    {
      ghost var before := repo;
      ghost var spec := Process(before, event, gateway);
      var key := event.key;
      messagesConsumed := messagesConsumed + 1;

      var existing := Find(repo, key);
      if existing.Some? && existing.value.status == Completed {
        assert spec == Processed(IdempotentSkip, before);
        return IdempotentSkip;
      }
      if existing.None? {
        var created := Create(repo, NewRecord(event));
        assert created.Ok?;  // the key was just found absent
        repo := created.value;
      }

      match Classify(event.metadata, gateway)
      case Success =>
        repo := Update(repo, key, Patch(Some(Completed), None, None));
        paymentsSuccessful := paymentsSuccessful + 1;
        r := PaymentSucceeded;
      case Transient =>
        retriesTotal := retriesTotal + 1;
        var retryCount := if existing.Some? then existing.value.retryCount + 1 else 1;
        repo := Update(repo, key, Patch(Some(Failed), Some(retryCount), Some(Some(TransientMessage))));
        r := TransientError(TransientMessage);
      case Permanent =>
        paymentsFailed := paymentsFailed + 1;
        repo := Update(repo, key, Patch(Some(Failed), None, Some(Some(PermanentMessage))));
        r := PermanentError(PermanentMessage);
    }
  }
}
