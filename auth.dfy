/**
 * The auth capability of src/lib.rs (module `auth`): the quota decision a
 * key resolves to, and how the Postgres-backed data source decides it.
 */
module Auth {
  import opened Wrappers
  import opened Records

  /** The reserved key that is unlimited without asking the store. */
  const UNLIMITED_KEY: string := "unlimit"

  /** A quota decision; `Limit(n)` holds a Rust `usize`. */
  datatype KeyLimit = Unlimited | Limit(n: nat)

  /** 2^64: the range of `usize` on a 64-bit target. */
  const USIZE_MODULUS: nat := 0x1_0000_0000_0000_0000

  /** Rust's `i as usize` for an `i32` on a 64-bit target: sign extension, then two's complement reinterpretation. */
  function I32AsUsize(i: i32): (u: nat)
    ensures u < USIZE_MODULUS
    ensures (u - i as int) % USIZE_MODULUS == 0
    ensures i >= 0 ==> u == i as int
    ensures i < 0 ==> u >= USIZE_MODULUS / 2
  {
    if i >= 0 then i as int else i as int + USIZE_MODULUS
  }

  /** The `limit` column of a matching `key_limit` row: either the stored `i32` or a decoding error. */
  type LimitColumn<E> = Result<i32, E>

  /**
   * What the store answers for one key: an error acquiring a connection or
   * running the query, no matching row, or a row whose `limit` column is read.
   */
  type Lookup<E> = Result<Option<LimitColumn<E>>, E>

  /**
   * `PgDatasource::key_limit`: the reserved key short-circuits to
   * `Some(Unlimited)`; any other key is looked up in `store`, whose errors
   * propagate as `Err` and stay apart from "no row", which is `None`.
   */
  function PgKeyLimit<E>(key: string, store: string -> Lookup<E>): (r: Result<Option<KeyLimit>, E>)
    ensures key == UNLIMITED_KEY ==> r == Ok(Some(Unlimited))
    ensures key != UNLIMITED_KEY ==> (r == Ok(None) <==> store(key) == Ok(None))
    ensures key != UNLIMITED_KEY && store(key).Err? ==> r == Err(store(key).error)
    ensures key != UNLIMITED_KEY && store(key).Ok? && store(key).value.Some? ==>
              match store(key).value.value
              case Err(e) => r == Err(e)
              case Ok(i) => r == Ok(Some(Limit(I32AsUsize(i))))
    ensures r.Ok? && r.value.Some? && r.value.value.Unlimited? ==> key == UNLIMITED_KEY
  {
    if key == UNLIMITED_KEY then Ok(Some(Unlimited))
    else
      match store(key)
      case Err(e) => Err(e)
      case Ok(None) => Ok(None)
      case Ok(Some(column)) =>
        match column
        case Err(e) => Err(e)
        case Ok(i) => Ok(Some(Limit(I32AsUsize(i))))
  }

  /** The reserved key resolves the same way whatever the store holds, even a store that only fails. */
  lemma UnlimitedKeyIgnoresStore<E>(store1: string -> Lookup<E>, store2: string -> Lookup<E>)
    ensures PgKeyLimit(UNLIMITED_KEY, store1) == PgKeyLimit(UNLIMITED_KEY, store2) == Ok(Some(Unlimited))
  {
  }

  /** Any other key depends on the store only through that key's own answer. */
  lemma OnlyOwnRowMatters<E>(key: string, store1: string -> Lookup<E>, store2: string -> Lookup<E>)
    requires store1(key) == store2(key)
    ensures PgKeyLimit(key, store1) == PgKeyLimit(key, store2)
  {
  }

  /** A store failure of either kind is never reported as "key not found". */
  lemma StoreErrorIsNotNotFound<E>(key: string, store: string -> Lookup<E>)
    requires key != UNLIMITED_KEY
    requires store(key).Err? || (store(key).Ok? && store(key).value.Some? && store(key).value.value.Err?)
    ensures PgKeyLimit(key, store).Err?
    ensures PgKeyLimit(key, store) != Ok(None)
  {
  }

  /** A non-negative stored limit is taken as is. */
  lemma StoredLimitTakenAsIs<E>(key: string, store: string -> Lookup<E>, n: i32)
    requires key != UNLIMITED_KEY && n >= 0
    requires store(key) == Ok(Some(Ok(n)))
    ensures PgKeyLimit(key, store) == Ok(Some(Limit(n as int)))
  {
  }

  /** A negative stored limit wraps to a bound of at least 2^63. */
  lemma NegativeStoredLimitWraps<E>(key: string, store: string -> Lookup<E>, n: i32)
    requires key != UNLIMITED_KEY && n < 0
    requires store(key) == Ok(Some(Ok(n)))
    ensures PgKeyLimit(key, store) == Ok(Some(Limit(n as int + USIZE_MODULUS)))
    ensures PgKeyLimit(key, store).value.value.n >= USIZE_MODULUS / 2
  {
  }
}
