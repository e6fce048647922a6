# Quota-gated row listing: a Dafny model

This project models the core of a small actix-web service that returns the rows of a
database table. The service can also cut the listing down to a per-key quota. The
database is replaced by fixed answers: what `select_all_test` returns, and what the
key store answers for each key. Three pieces of logic are modelled and proved:

- **Key-limit resolution** (`PgDatasource::key_limit`): the reserved key `"unlimit"` is
  unlimited and the store is not asked. Any other key becomes "no row" (`None`),
  `Limit(n)`, or an error. An error is never confused with "not found".
- **Quota-gated listing** (`list_with_limits`): look up the key, then fetch all rows,
  then truncate them to the limit. A lookup error or a fetch error gives an internal
  error. An unknown key gives unauthorized, and in that case no fetch is made.
- **Prefix filter** (`model::get_datas_start_with_char`): keep the `col1` of the rows
  whose `col1` starts with a given character, in fetch order. A fetch error comes back
  wrapped as `DatasourceError`.

Modules: `Wrappers` (Option, Result), `Records` (the `TR` row and `i32`), `Auth`
(`KeyLimit`, the reserved key, `key_limit` as a pure function), `Model` (the filter),
`Datasource` (the capability object) and `Handlers` (the handlers).

`Datasource.Datasource` stands for the one object that serves as both capabilities.
In the server that object is a `PgDatasource`, and in the handler test it is a
`MockPgDatasource`. Its answers are fixed when it is built, the way a mock's answers
are scripted. Its key lookups are either scripted per key or go through the Postgres
logic over a key table. Each call is appended to its `calls` log, the way a mock
counts calls, so the handler's contract can say which calls it made and in what order.
`Handlers.ListWithLimits` is proved against the pure function
`Handlers.ListWithLimitsOutcome`, and the lemmas are about that function.

Two facts of the code shape the model:

- `KeyLimit::Limit` holds a `usize`, but the stored limit is an `i32` converted with
  `as usize`, so a negative stored limit wraps to a huge bound (`Auth.I32AsUsize`, for
  a 64-bit target).
- The three pass-through handlers (`list_extractor`, `list_request`, `list_generic`)
  apply no quota: they return the fetched rows as they are (`Handlers.ListAll`).

## Model

| member | source | states |
|---|---|---|
| `Auth.I32AsUsize` | src/lib.rs:112 | `i as usize` on a 64-bit target: the result is below 2^64 and equal to `i` modulo 2^64. It equals `i` when `i >= 0` and is at least 2^63 when `i < 0` |
| `Auth.PgKeyLimit` | src/lib.rs:100-117 | the reserved key gives `Ok(Some(Unlimited))`. For any other key: the result is `Ok(None)` exactly when the store has no row; a store error or a column-decode error comes back as that same `Err`; a stored `i` gives `Limit` of `i as usize`. `Unlimited` is returned only for the reserved key |
| `Auth.UnlimitedKeyIgnoresStore` | src/lib.rs:101-103 | the reserved key resolves the same way against any two stores, even stores that only fail |
| `Auth.OnlyOwnRowMatters` | src/lib.rs:107-114 | any other key's result depends on the store only through that key's own answer |
| `Auth.StoreErrorIsNotNotFound` | src/lib.rs:105-113 | a store error or a decode error for a non-reserved key gives `Err`, never `Ok(None)` |
| `Auth.StoredLimitTakenAsIs` | src/lib.rs:112-114 | a non-negative stored limit `n` gives `Ok(Some(Limit(n)))` |
| `Auth.NegativeStoredLimitWraps` | src/lib.rs:112 | a negative stored limit `n` gives `Limit(n + 2^64)`, a bound of at least 2^63 |
| `Model.StartsWith` | src/lib.rs:139 | `str::starts_with(char)`: true exactly when `[c]` is a prefix of the string, so an empty `col1` never matches and case is not folded |
| `Model.KeepStartingWith` | src/lib.rs:136-145 | the filtered output is no longer than the fetched rows, and every element of it starts with the given character |
| `Model.GetDatasStartWithChar` | src/lib.rs:130-148 | the result is an error exactly when the fetch failed. That error is `DatasourceError(e)` with the fetch's own `e` and no partial rows. Otherwise the result is the filtered projection of the fetched rows |
| `Model.KeepStartingWithAppend` | src/lib.rs:136-145 | filtering the concatenation of two row sequences gives the concatenation of their filtered outputs (order is kept) |
| `Model.KeepStartingWithSingle` | src/lib.rs:138-144 | one row gives `[col1]` if its `col1` starts with the character, and nothing otherwise |
| `Model.KeepStartingWithSelects` | src/lib.rs:136-145 | there is a strictly increasing list of row positions that pairs each output element with the `col1` of its row. A position is on the list exactly when that row's `col1` starts with the character |
| `Model.NoMatchKeepsNothing` | src/lib.rs:139-143 | if no `col1` starts with the character, the output is empty |
| `Model.AllMatchKeepsAll` | src/lib.rs:139-143 | if every `col1` starts with the character, the output is every `col1`, in order |
| `Model.MockedValuesScenario` | src/lib.rs:175-191 | for `cornflour, Delta, California, elegant, creatures` and `'c'`, the result is `["cornflour", "creatures"]` (the match is case-sensitive) |
| `Model.FetchErrorScenario` | src/lib.rs:194-207 | a fetch error `e` comes back as `Err(DatasourceError(e))` |
| `Datasource.KeyLimitAnswer` | src/lib.rs:100-117 | what `key_limit` answers: a scripted backend gives its script's answer for the key, as the mock at src/handlers.rs:135-142 does. The Postgres backend gives `Ok(Some(Unlimited))` for the reserved key; for any other key it gives `Ok(None)` exactly when the table has no row, and `Err` when the table lookup fails |
| `Datasource.KeyLimitCalls` | src/lib.rs:101-110 | one `key_limit` call starts with the call itself. It queries the store only with the Postgres backend and only for a non-reserved key. It never fetches rows |
| `Datasource.Datasource.constructor` | src/lib.rs:34-37 | a new capability object holds the given answers and has made no calls |
| `Datasource.Datasource.SelectAllTest` | src/lib.rs:66-71 | returns the store's rows or its error, and logs exactly one `select_all_test` call |
| `Datasource.Datasource.KeyLimit` | src/lib.rs:100-117 | returns the backend's answer for the key (scripted, or `PgKeyLimit` over the key table) and logs exactly the calls `KeyLimitCalls` gives |
| `Handlers.Truncate` | src/handlers.rs:50-52 | `Vec::truncate(l)`: the result is a prefix of the rows, of length `min(l, rows)` |
| `Handlers.ListWithLimitsOutcome` | src/handlers.rs:42-54 | a lookup error gives that internal error, and an unknown key gives unauthorized. If the key is found, a fetch error gives that internal error. Rows are listed exactly when the key is found and the fetch succeeds. The listing is a prefix of the fetched rows: all of them when unlimited, `min(l, fetched)` of them under `Limit(l)` |
| `Handlers.Authorized` | src/handlers.rs:42-45 | the request goes on to the fetch exactly when the lookup neither failed nor answered `None` |
| `Handlers.FetchCalls` | src/handlers.rs:42-48 | at most one fetch call, made exactly when the lookup succeeded and found the key |
| `Handlers.ListWithLimits` | src/handlers.rs:37-55 | the outcome is `ListWithLimitsOutcome` of the lookup's answer and the fetch's answer. The lookup is made once, with the request's key, and comes first. The fetch is made only when the key was found, and at most once. With one object in both roles its log shows lookup calls and then the fetch |
| `Handlers.ListAll` | src/handlers.rs:9-29 | the pass-through handlers return exactly the fetched rows and make one fetch call (the fetch must succeed, because the handlers unwrap it) |
| `Handlers.FetchIrrelevantUnlessAuthorized` | src/handlers.rs:42-45 | when the lookup fails or the key is unknown, the fetch's answer does not change the outcome, and no rows are listed |
| `Handlers.ReservedKeyListsEverything` | src/lib.rs:101-103 | the reserved key, resolved by the Postgres backend (its early return), then run through the unlimited branch of the handler (src/handlers.rs:50-54), lists every fetched row whatever the key table holds |
| `Handlers.PostgresKeyLookupOutcome` | src/handlers.rs:42-45 | with the Postgres backend and a non-reserved key, a key with no row is unauthorized and a failed lookup is an internal error with that cause, whatever the fetch |
| `Handlers.MockListLimitedScenario` | src/handlers.rs:128-185 | with 50 rows: "noworks" is unauthorized and its only call is the lookup (no fetch). "works" with `Limit(10)` lists 10 rows, and the reserved key lists 50 |
| `Handlers.ListRequestScenario` | src/handlers.rs:65-85 | a store holding the single row `{6, "wyoming"}` lists exactly that row |

## Left out

- `select_last_test` (src/lib.rs:73-78): its "most recent row" meaning lives entirely in the SQL `ORDER BY id DESC`, so there is no logic to model.
- Connection pooling, SQL text and row decoding by sqlx: the store is an abstract answer per key (`Auth.Lookup`) and a fixed answer for the row fetch. A connection-acquire error and a query error are folded into the same outer `Err`.
- async/await, `Send + Sync`, `Arc`/`Data` sharing and the actix extractors: these are concurrency and framework plumbing. The handlers take the capability object directly.
- `list_request`'s `Data::extract` failure (src/handlers.rs:17-18), raised when no data source is registered with the app: this is app wiring and is not modelled.
- `Handlers.ListAll`: the `.unwrap()` panic on a fetch error is not modelled; the precondition requires that the fetch succeeds.
- JSON serialisation, HTTP status codes and the "invalid key" message text: only the three distinguishable outcomes are modelled.
- mockall's expectation machinery: a mock's answers are modelled as a scripted function of the key (`Datasource.KeyLimitBackend.Scripted`).
- The tests that need a live database (src/lib.rs:156-172) depend on database contents and are not modelled.
- `Model.GetDatasStartWithChar` takes the fetch's answer rather than the data-source object. Its one `select_all_test` call is not put in a call log.
- `Auth.I32AsUsize` assumes a 64-bit `usize`.
- src/main.rs and expanded.rs: server start-up, logging and routing are not part of this model.
