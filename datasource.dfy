/**
 * The capability object behind both traits of src/lib.rs, `Datasource` and
 * `auth::AuthDatasource`. In the server and in the handler test one object
 * (a `PgDatasource`, or a `MockPgDatasource`) serves both roles, so one
 * class holds both operations. Its answers are fixed when it is built, as a
 * test double's are scripted; every call is appended to `calls`, the way a
 * mock counts its invocations.
 */
module Datasource {
  import opened Wrappers
  import opened Records
  import opened Auth

  /** How `key_limit` is answered: scripted per key, as the mock does, or by the Postgres implementation over a `key_limit` table. */
  datatype KeyLimitBackend<E> =
    | Scripted(answer: string -> Result<Option<KeyLimit>, E>)
    | Postgres(table: string -> Lookup<E>)

  /** What `key_limit(key)` returns with the given backend. */
  function KeyLimitAnswer<E>(backend: KeyLimitBackend<E>, key: string): (r: Result<Option<KeyLimit>, E>)
    ensures backend.Scripted? ==> r == backend.answer(key)
    ensures backend.Postgres? && key == UNLIMITED_KEY ==> r == Ok(Some(Unlimited))
    ensures backend.Postgres? && key != UNLIMITED_KEY ==>
              (r == Ok(None) <==> backend.table(key) == Ok(None)) && (backend.table(key).Err? ==> r.Err?)
  {
    match backend
    case Scripted(answer) => answer(key)
    case Postgres(table) => PgKeyLimit(key, table)
  }

  /** An observable call: a capability operation, or a round trip to the store to resolve a key. */
  datatype Call = SelectAllCall | KeyLimitCall(key: string) | StoreKeyQuery(key: string)

  /** The calls one `key_limit(key)` makes: the store is queried only by the Postgres backend, and never for the reserved key. */
  function KeyLimitCalls<E>(backend: KeyLimitBackend<E>, key: string): (cs: seq<Call>)
    ensures |cs| > 0 && cs[0] == KeyLimitCall(key)
    ensures StoreKeyQuery(key) in cs <==> backend.Postgres? && key != UNLIMITED_KEY
    ensures SelectAllCall !in cs
  {
    if backend.Postgres? && key != UNLIMITED_KEY then [KeyLimitCall(key), StoreKeyQuery(key)] else [KeyLimitCall(key)]
  }

  class Datasource<E> {
    /** What `select_all_test` returns: every row of the store, in store order, or the error reading them. */
    const allRows: Result<seq<TR>, E>
    const keyLimits: KeyLimitBackend<E>
    /** Every call made on this object so far, oldest first. */
    var calls: seq<Call>

    constructor (allRows: Result<seq<TR>, E>, keyLimits: KeyLimitBackend<E>)
      ensures this.allRows == allRows && this.keyLimits == keyLimits
      ensures calls == []
    {
      this.allRows := allRows;
      this.keyLimits := keyLimits;
      calls := [];
    }

    /** `Datasource::select_all_test`. */
    method SelectAllTest() returns (r: Result<seq<TR>, E>)
      modifies this`calls
      ensures r == allRows
      ensures calls == old(calls) + [SelectAllCall]
    {
      r := allRows;
      calls := calls + [SelectAllCall];
    }

    /** `AuthDatasource::key_limit`. */
    method KeyLimit(key: string) returns (r: Result<Option<KeyLimit>, E>)
      modifies this`calls
      ensures r == KeyLimitAnswer(keyLimits, key)
      ensures calls == old(calls) + KeyLimitCalls(keyLimits, key)
    {
      calls := calls + [KeyLimitCall(key)];
      match keyLimits
      case Scripted(answer) =>
        r := answer(key);
      case Postgres(table) =>
        if key == UNLIMITED_KEY {
          return Ok(Some(Unlimited));
        }
        calls := calls + [StoreKeyQuery(key)];
        r := PgKeyLimit(key, table);
    }
  }
}
