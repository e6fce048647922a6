/**
 * The request handlers of src/handlers.rs. `ListWithLimits` is the
 * quota-gated listing: resolve the key, then fetch, then truncate; the others
 * pass the fetched rows straight through.
 */
module Handlers {
  import opened Wrappers
  import opened Records
  import opened Auth
  import opened Datasource

  /** The three outcomes a caller can tell apart: the rows as JSON, "invalid key", or an internal server error with its cause. */
  datatype Outcome<E> = Listed(rows: seq<TR>) | Unauthorized | InternalError(cause: E)

  function Min(a: nat, b: nat): nat
  {
    if a <= b then a else b
  }

  /** `Vec::truncate(l)`: keep the first `l` rows; a vector no longer than `l` is left as it is. */
  function Truncate(rows: seq<TR>, l: nat): (r: seq<TR>)
    ensures r <= rows
    ensures |r| == Min(l, |rows|)
  {
    if l < |rows| then rows[..l] else rows
  }

  /** The auth answer lets the request go on to the fetch: the lookup succeeded and found the key. */
  predicate Authorized<E>(auth: Result<Option<KeyLimit>, E>)
    ensures Authorized(auth) <==> auth != Ok(None) && !auth.Err?
  {
    auth.Ok? && auth.value.Some?
  }

  /**
   * What `list_with_limits` answers, given the auth lookup's answer and the
   * fetch's answer. A lookup error is an internal error, an unknown key is
   * unauthorized, and neither looks at the fetch; a fetch error is an
   * internal error; otherwise the fetched rows, cut to the limit.
   */
  function ListWithLimitsOutcome<E>(auth: Result<Option<KeyLimit>, E>, fetched: Result<seq<TR>, E>): (o: Outcome<E>)
    ensures auth.Err? ==> o == InternalError(auth.error)
    ensures auth == Ok(None) ==> o == Unauthorized
    ensures Authorized(auth) && fetched.Err? ==> o == InternalError(fetched.error)
    ensures o.Listed? <==> Authorized(auth) && fetched.Ok?
    ensures o.Listed? ==> o.rows <= fetched.value
    ensures o.Listed? && auth.value.value.Unlimited? ==> o.rows == fetched.value
    ensures o.Listed? && auth.value.value.Limit? ==> |o.rows| == Min(auth.value.value.n, |fetched.value|)
  {
    match auth
    case Err(e) => InternalError(e)
    case Ok(None) => Unauthorized
    case Ok(Some(limit)) =>
      match fetched
      case Err(e) => InternalError(e)
      case Ok(rows) =>
        match limit
        case Unlimited => Listed(rows)
        case Limit(l) => Listed(Truncate(rows, l))
  }

  /** The calls the handler makes to fetch rows, given the auth answer: one `select_all_test`, or none. */
  function FetchCalls<E>(auth: Result<Option<KeyLimit>, E>): (cs: seq<Call>)
    ensures |cs| <= 1
    ensures SelectAllCall in cs <==> Authorized(auth)
  {
    if Authorized(auth) then [SelectAllCall] else []
  }

  /**
   * `list_with_limits`. The auth lookup is made once, with the request's
   * key, before anything else; the fetch is made at most once, and only
   * after the key was found. When one object serves as both capabilities,
   * as in the server and in the test, its call log shows that order.
   */
  method ListWithLimits<E>(datasource: Datasource<E>, authDatasource: Datasource<E>, key: string) returns (o: Outcome<E>)
    modifies datasource`calls, authDatasource`calls
    ensures o == ListWithLimitsOutcome(KeyLimitAnswer(authDatasource.keyLimits, key), datasource.allRows)
    ensures datasource == authDatasource ==>
              datasource.calls == old(datasource.calls) + KeyLimitCalls(authDatasource.keyLimits, key)
                                  + FetchCalls(KeyLimitAnswer(authDatasource.keyLimits, key))
    ensures datasource != authDatasource ==>
              && authDatasource.calls == old(authDatasource.calls) + KeyLimitCalls(authDatasource.keyLimits, key)
              && datasource.calls == old(datasource.calls) + FetchCalls(KeyLimitAnswer(authDatasource.keyLimits, key))
  {
    var limit := authDatasource.KeyLimit(key);
    if limit.Err? {
      return InternalError(limit.error);
    }
    if limit.value.None? {
      return Unauthorized;
    }
    var fetched := datasource.SelectAllTest();
    if fetched.Err? {
      return InternalError(fetched.error);
    }
    var results := fetched.value;
    if limit.value.value.Limit? {
      var l := limit.value.value.n;
      if l < |results| {
        results := results[..l];
      }
    }
    return Listed(results);
  }

  /**
   * `list_extractor`, `list_request` and `list_generic`: each fetches all
   * rows once and returns them unchanged. Each unwraps the fetch, so a fetch
   * error is excluded by the precondition.
   */
  method ListAll<E>(datasource: Datasource<E>) returns (rows: seq<TR>)
    requires datasource.allRows.Ok?
    modifies datasource`calls
    ensures rows == datasource.allRows.value
    ensures datasource.calls == old(datasource.calls) + [SelectAllCall]
  {
    var fetched := datasource.SelectAllTest();
    rows := fetched.value;
  }

  /** If the key is not found, or its lookup fails, the fetch's answer has no effect on the outcome. */
  lemma FetchIrrelevantUnlessAuthorized<E>(auth: Result<Option<KeyLimit>, E>, fetched1: Result<seq<TR>, E>, fetched2: Result<seq<TR>, E>)
    requires !Authorized(auth)
    ensures ListWithLimitsOutcome(auth, fetched1) == ListWithLimitsOutcome(auth, fetched2)
    ensures !ListWithLimitsOutcome(auth, fetched1).Listed?
  {
  }

  /** Against the Postgres auth backend, the reserved key lists every fetched row, whatever the key table holds. */
  lemma ReservedKeyListsEverything<E>(table: string -> Lookup<E>, rows: seq<TR>)
    ensures ListWithLimitsOutcome(KeyLimitAnswer(Postgres(table), UNLIMITED_KEY), Ok(rows)) == Listed(rows)
  {
  }

  /** Against the Postgres auth backend, a key with no row is unauthorized and a key whose lookup fails is an internal error, whatever the fetch would give. */
  lemma PostgresKeyLookupOutcome<E>(table: string -> Lookup<E>, key: string, fetched: Result<seq<TR>, E>)
    requires key != UNLIMITED_KEY
    ensures table(key) == Ok(None) ==> ListWithLimitsOutcome(KeyLimitAnswer(Postgres(table), key), fetched) == Unauthorized
    ensures table(key).Err? ==> ListWithLimitsOutcome(KeyLimitAnswer(Postgres(table), key), fetched) == InternalError(table(key).error)
  {
  }

  /**
   * The source's `test_mock_list_limited`: 50 rows; "works" is limited to
   * 10, the reserved key is unlimited, any other key is unknown. The
   * unknown key is refused without a fetch.
   */
  method MockListLimitedScenario() returns (noworks: Outcome<string>, works: Outcome<string>, unlimited: Outcome<string>, noworksCalls: seq<Call>)
    ensures noworks == Unauthorized
    ensures noworksCalls == [KeyLimitCall("noworks")]
    ensures works.Listed? && |works.rows| == 10
    ensures unlimited.Listed? && |unlimited.rows| == 50
  {
    var rows := seq(50, _ => TR(-1, "repeat"));
    var script := (k: string) =>
      if k == "works" then Ok(Some(Limit(10)))
      else if k == UNLIMITED_KEY then Ok(Some(Unlimited))
      else Ok(None);
    var mock := new Datasource(Ok(rows), Scripted(script));
    noworks := ListWithLimits(mock, mock, "noworks");
    noworksCalls := mock.calls;
    works := ListWithLimits(mock, mock, "works");
    unlimited := ListWithLimits(mock, mock, UNLIMITED_KEY);
  }

  /** The source's `test_mock_list_request` and its siblings: one stored row comes back as the whole listing. */
  method ListRequestScenario() returns (rows: seq<TR>)
    ensures rows == [TR(6, "wyoming")]
  {
    var mock := new Datasource<string>(Ok([TR(6, "wyoming")]), Scripted(_ => Ok(None)));
    rows := ListAll(mock);
  }
}
