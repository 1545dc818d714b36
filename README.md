# public-record: the dispatch and aggregation layer, in Dafny

`PublicRecordClient` is a facade over one client per public-record category: court records,
property records, business registration and government data. It can do four things:

- fan one search out to every category client (`search_all`);
- route a search or a record lookup to one client by a case-insensitive name or short alias
  (`search_by_type`, `get_record_by_type`);
- list the categories (`get_available_apis`);
- report which categories have an API key (`get_api_status`).

Each category client is built on `BaseAPIClient`. That class builds the request headers and
the request URL.

The model is split into five files:

- `wrappers.dfy` (`Wrappers`): `Option` for Python's `None`, and `Result` for a value or a
  raised exception's message.
- `text.dfy` (`Text`): `str.lower()` on record-type names, and what it identifies.
- `base.dfy` (`Base`): `BaseAPIClient._get_headers` as a method that builds an
  insertion-ordered header list step by step. The URL rule of `_make_request` is a function.
- `public_record.dfy` (`PublicRecord`): the four categories, the client value built by the
  constructor, and the operations. `search_all` is a method that appends one entry per
  category, and each append has its own success and failure branch. It is proved equal to
  `Fanout`, the per-category specification. `search_by_type` and `get_record_by_type` keep the
  source's `if`/`elif` chains. `Resolve` is a separate reference definition: it looks a name up
  in a static table of canonical names and aliases.
- `properties.dfy` (`PublicRecordProperties`): what callers can rely on. The fan-out is
  total, ordered and isolated. Both single-category operations share one case-insensitive,
  alias-aware resolution. Unknown names are rejected without consulting any client. The
  status report follows the constructor's key rule.

The two classes only set their fields in their constructors, so they are values here:
`PublicRecordClient` and `BaseClient`. The category clients' `search` and `get_record` are
arbitrary functions held in a `Behaviour`. A `Failure(msg)` result stands for a raised
`Exception` (any subclass of it, which is what `search_all`'s `except Exception` catches) whose
`str()` is `msg`. This lets the fan-out's per-entry error capture be checked against
failing clients. The process environment is an input map from names to values, read after
any `.env` file has been loaded.

The facade wires exactly four category clients, and the model has exactly four categories:

- `PublicRecordClient` constructs only the court, property, business and government clients
  (src/public_record/client.py:45-48), and the package exports only those four
  (src/public_record/apis/__init__.py:3-13).
- The web layer's example request lists six record types (app.py:36), and two routes read a
  `vehicle_records` attribute (app.py:212, 219). `PublicRecordClient` has no such attribute.
  The background-check and vehicle clients exist as classes but are never constructed.
- A category's status is `bool` of its single effective key (src/public_record/client.py:172-177).
  The facade passes no other credentials to the category clients.
- The `ValueError` for an unknown name lists the four short aliases
  (src/public_record/client.py:119-122).

## Model

| member | source | states |
|---|---|---|
| `Text.Lower` | src/public_record/client.py:108 | `record_type.lower()` keeps the length and lower-cases each character independently |
| `Text.LowerEqualIffEqualIgnoringCase` | src/public_record/client.py:108 | two names have the same lower-case form exactly when they differ only in letter case |
| `Text.LowerIdempotent` | src/public_record/client.py:108 | lower-casing an already lower-cased name changes nothing |
| `Base.GetHeaders` | src/public_record/base.py:41-55 | the headers are `Content-Type` and `Accept`, both `application/json`, in that order; `Authorization` is added last exactly when the key is neither `None` nor empty, and its value is `Bearer ` followed by the key; no other header is ever present |
| `Base.Lookup` | src/public_record/base.py:47-55 | `headers.get(name)` is absent exactly when no header has that name, and otherwise is the value of the first header with that name |
| `Base.RequestUrl` | src/public_record/base.py:78 | with a non-empty base URL, the URL is the base, one `/`, then the endpoint; otherwise it is the endpoint unchanged |
| `Base.RequestUrlInjective` | src/public_record/base.py:78 | one client never maps two different endpoints to the same URL |
| `PublicRecord.Getenv` | src/public_record/client.py:39-42 | `os.getenv(name)` is present exactly when the variable is set, and is then its value |
| `PublicRecord.Or` | src/public_record/client.py:39-42 | Python's `arg or getenv(...)`: the argument when that is non-empty, otherwise the second operand (so `"" or None` is `None`); non-empty exactly when one of them is |
| `PublicRecord.Create` | src/public_record/client.py:18-48 | a non-empty constructor argument wins; otherwise the environment variable's value is used (`None` when unset); each category client gets its key, its `api_type` tag and its base URL, and its behaviour is that of its own category's client class built with that key |
| `PublicRecord.Fanout` | src/public_record/client.py:66-92 | one entry per category, in order: the category name, then the client's result, or `{'error': msg}` if it raised |
| `PublicRecord.SearchAll` | src/public_record/client.py:50-92 | the four guarded steps of `search_all` build exactly the `Fanout` entries over `court, property, business, government` |
| `PublicRecord.FirstNamed` | src/public_record/client.py:110-117 | the reference lookup returns a category that the name denotes, or none when no category in the table is named |
| `PublicRecord.InvalidTypeMessage` | src/public_record/client.py:119-122 | the `ValueError` message is `Invalid record type: `, then the lower-cased input, then `. Valid types: `, then `court, property, business, government`, each at its exact position |
| `PublicRecord.SearchByType` | src/public_record/client.py:94-122 | a lower-cased name that is some category's name or alias returns or raises exactly what that category's `search` does; a name that is no category's raises `ValueError` with the message above |
| `PublicRecord.GetRecordByType` | src/public_record/client.py:124-151 | the same routing and the same `ValueError`, with the category's `get_record` |
| `PublicRecord.Resolve` | src/public_record/client.py:110-117 | the reference table resolves a name to a category that its lower-case form denotes, and to none exactly when no category is denoted |
| `PublicRecord.GetAvailableApis` | src/public_record/client.py:153-164 | four names, the i-th the canonical name of the i-th category in the facade's order |
| `PublicRecord.GetApiStatus` | src/public_record/client.py:166-177 | four entries in the same order, each the category's name and whether its key is neither `None` nor empty |
| `PublicRecordProperties.SearchAllKeys` | src/public_record/client.py:159-164 | `search_all`'s keys and `get_api_status`'s keys are `get_available_apis`, in the same order, and these keys are pairwise distinct |
| `PublicRecordProperties.SearchAllWhenAllFail` | src/public_record/client.py:69-90 | when every client raises, `search_all` still has four entries, each `{'error': msg}` with that client's own message |
| `PublicRecordProperties.SearchAllIsolation` | src/public_record/client.py:69-90 | replacing one category's client changes only that category's entry, and that entry is the new client's outcome |
| `PublicRecordProperties.SearchAllOneFails` | src/public_record/client.py:69-72 | a client that raises `msg` contributes `{'error': msg}` under its own name, whatever the other clients do |
| `PublicRecordProperties.SearchAllTagged` | src/public_record/client.py:66-92 | on a client built by the constructor, if every category client tags its results with its `api_type`, each entry is an error entry or has `api_type` equal to its key |
| `PublicRecordProperties.SearchAllTaggedAfterCreate` | src/public_record/client.py:45-92 | when each category's client class tags its results with its own `api_type`, every entry of `search_all` on a freshly constructed facade is an error entry or is tagged with its own key |
| `PublicRecord.DenotesUnique` | src/public_record/client.py:110-117 | no string is the name or alias of two different categories, so at most one branch of the `if`/`elif` chain can match it |
| `PublicRecordProperties.ResolveIff` | src/public_record/client.py:108-117 | a string resolves to a category exactly when its lower-case form is that category's canonical name or short alias |
| `PublicRecordProperties.FollowChain` | src/public_record/client.py:108-122 | the `if`/`elif` branch taken on the lower-cased name is the category the reference table picks, and the final `else` is taken exactly when the table picks none |
| `PublicRecordProperties.SearchByTypeResolves` | src/public_record/client.py:94-122 | `search_by_type` returns or raises exactly what the resolved category's `search` does, and raises `ValueError` for an unresolved name |
| `PublicRecordProperties.GetRecordByTypeResolves` | src/public_record/client.py:124-151 | `get_record_by_type` returns or raises exactly what the resolved category's `get_record` does, and raises `ValueError` for an unresolved name |
| `PublicRecordProperties.SameRejections` | src/public_record/client.py:137-151 | `search_by_type` and `get_record_by_type` raise `ValueError` for exactly the same names: those that do not resolve |
| `PublicRecordProperties.ResolvesNameAndAlias` | src/public_record/client.py:139-146 | each category's short alias and canonical name both resolve to that category |
| `PublicRecordProperties.AliasAndNameAgree` | src/public_record/client.py:110-117 | the short alias and the canonical name reach the same client, for both search and record lookup |
| `PublicRecordProperties.CaseInsensitive` | src/public_record/client.py:108-117 | two names that differ only in case give identical results from both operations, whether routed or rejected |
| `PublicRecordProperties.UnknownRejected` | src/public_record/client.py:118-122 | a name that is no category's name or alias raises the same `ValueError` from both operations, whatever the clients would do, so no client is consulted |
| `PublicRecordProperties.ValidTypesAreAliases` | src/public_record/client.py:119-121 | the list in the message is the four short aliases, in category order |
| `PublicRecordProperties.StatusIffConfigured` | src/public_record/client.py:172-177 | after construction, a category reports `True` exactly when its constructor argument is non-empty or its environment variable is set and non-empty |
| `PublicRecordProperties.StatusMatchesAuthorization` | src/public_record/client.py:45-48 | a category reports `True` exactly when its client's key makes `_get_headers` send `Authorization` |

## Left out

- The HTTP session and its retry policy are not modelled. This is library configuration
  (src/public_record/base.py:24-39).
- Request execution, `raise_for_status` and JSON decoding in `_make_request` are not
  modelled. They are network I/O. Only the URL rule at line 78 is modelled.
- `load_dotenv` and `os.getenv` are replaced by a given environment map, because they are
  process I/O. That map is the process environment as `Create` reads it. `load_dotenv()`
  (src/public_record/client.py:36) adds `.env` values only for variables not already set, and
  it changes the environment of the whole process. app.py:11 already calls it at import, so
  `load_env=False` does not remove values loaded earlier. The model does not track
  the environment across constructions.
- The category clients' mock payloads and category-specific operations are not modelled.
  They return fixed literals. The clients' `search` and `get_record` are arbitrary
  functions that may fail.
- The background-check and vehicle-records clients are not modelled, because
  `PublicRecordClient` does not construct or export them.
- The Flask routes in app.py, and examples.py, are not part of this model. They are
  plumbing and console output.
- `Text.Lower`: lower-cases ASCII letters only, while Python's `str.lower()` also lower-cases
  other scripts. The set of accepted names is the same, because no non-ASCII character
  lower-cases to a plain ASCII letter of an accepted name. The `ValueError` message differs
  for non-ASCII input.
- `PublicRecord.SearchByType`: an exception raised by a category client is modelled only by
  its message (`Raised(msg)`), not its exception type.
- `PublicRecord.GetRecordByType`: an exception raised by a category client is modelled only
  by its message (`Raised(msg)`), not its exception type.
- JSON values are kept abstract. Filter values (`**kwargs`) are passed through unchanged and
  are never inspected.
