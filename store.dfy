/**
 * The transaction store: the payment_transactions collection, with its unique index on
 * the idempotency key. The collection is a map from idempotency key to record; the three
 * operations the payment service uses (find, create, update) are pure functions on it.
 * The created_at / updated_at timestamps are not modelled.
 */
module Store {
  import opened Wrappers

  datatype Status = Processing | Completed | Failed

  /** One stored transaction. */
  datatype Record = Record(
    key: string,
    amount: real,
    currency: string,
    userId: string,
    status: Status,
    retryCount: nat,
    lastError: Option<string>)

  type Records = map<string, Record>

  /** The fields an update sets; a field left `None` keeps its stored value (`$set` semantics). */
  datatype Patch = Patch(status: Option<Status>, retryCount: Option<nat>, lastError: Option<Option<string>>)

  datatype StoreError = DuplicateKey(key: string)

  /** Every record sits under its own idempotency key, as the index on that field guarantees. */
  ghost predicate Keyed(records: Records) {
    forall k :: k in records ==> records[k].key == k
  }

  /** Two records describe the same payment: only status, retry count and last error may differ. */
  ghost predicate SamePayment(a: Record, b: Record) {
    a.key == b.key && a.amount == b.amount && a.currency == b.currency && a.userId == b.userId
  }

  /** find_by_idempotency_key: the record stored under `key`, if any. */
  function Find(records: Records, key: string): (r: Option<Record>)
    ensures r.Some? <==> key in records
    ensures r.Some? ==> r.value == records[key]
  {
    if key in records then Some(records[key]) else None
  }

  /** create_transaction: insert a new record; the unique index rejects a key that is already present. */
  function Create(records: Records, rec: Record): (r: Result<Records, StoreError>)
    ensures r.Err? <==> rec.key in records
    ensures r.Err? ==> r.error == DuplicateKey(rec.key)
    ensures r.Ok? ==> r.value.Keys == records.Keys + {rec.key} && r.value[rec.key] == rec
    ensures r.Ok? ==> forall k :: k in records ==> r.value[k] == records[k]
    ensures r.Ok? && Keyed(records) ==> Keyed(r.value)
  {
    if rec.key in records then Err(DuplicateKey(rec.key)) else Ok(records[rec.key := rec])
  }

  /** Apply the fields of `patch` to `rec`, keeping every field the patch does not name. */
  function Merge(rec: Record, patch: Patch): (r: Record)
    ensures SamePayment(r, rec)
    ensures patch.status.None? ==> r.status == rec.status
    ensures patch.status.Some? ==> r.status == patch.status.value
    ensures patch.retryCount.None? ==> r.retryCount == rec.retryCount
    ensures patch.retryCount.Some? ==> r.retryCount == patch.retryCount.value
    ensures patch.lastError.None? ==> r.lastError == rec.lastError
    ensures patch.lastError.Some? ==> r.lastError == patch.lastError.value
  {
    Record(rec.key, rec.amount, rec.currency, rec.userId,
      match patch.status case Some(s) => s case None => rec.status,
      match patch.retryCount case Some(n) => n case None => rec.retryCount,
      match patch.lastError case Some(e) => e case None => rec.lastError)
  }

  /**
   * update_transaction: merge `patch` into the record under `key`. An update that matches no
   * record changes nothing (the store's update is not an upsert and reports no error).
   */
  function Update(records: Records, key: string, patch: Patch): (r: Records)
    ensures r.Keys == records.Keys
    ensures forall k :: k in records && k != key ==> r[k] == records[k]
    ensures key in records ==> r[key] == Merge(records[key], patch)
    ensures Keyed(records) ==> Keyed(r)
  {
    if key in records then records[key := Merge(records[key], patch)] else records
  }

  /** A second create of the same record is refused: the unique index admits one record per key. */
  lemma CreateTwiceFails(records: Records, rec: Record)
    requires Create(records, rec).Ok?
    ensures Create(Create(records, rec).value, rec) == Err(DuplicateKey(rec.key))
    ensures Find(Create(records, rec).value, rec.key) == Some(rec)
  {
  }
}
