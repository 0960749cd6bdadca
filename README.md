# NautilusTrader exchange adapters: Binance request signing and the Betfair client registry

This project models two pieces of deterministic logic from the exchange
adapters of NautilusTrader, a trading and market-data platform:

- **The Binance HTTP client** (`BinanceHttpClient`).
  - It builds the `k=v&k=v` query string from an ordered payload.
  - It signs a request: it sets `timestamp` to the clock's milliseconds, takes an HMAC-SHA256 of the query string, and sets `signature`.
  - For the "encoded" variant, it appends the query string and the signature to the URL path instead of sending a payload.
  - Its constructor fills in headers and the default base URL.
  - It collects the rate-limit response headers (`x-mbx-used-weight…`, `x-mbx-order-count…`, `x-sapi-used…`).
  - It sorts failed responses by HTTP status into "ignored", `BinanceClientError` and `BinanceServerError`.
- **The Betfair factories.**
  - `CLIENTS` is a process-wide registry of HTTP clients. Its key is username, password, application key and certificate directory, joined with `|`.
  - A credential that is `None` or empty is read from its `BETFAIR_*` environment variable.
  - `get_cached_betfair_client` and `get_cached_betfair_instrument_provider` each sit behind a one-slot cache (`lru_cache(1)`).
  - The data and execution client factories default the market filter to `{}` and the account number to `"001"`.

Files:

- `wrappers.dfy`: `Option`, `Result`, and Python's truthiness and `x or default` on optional strings.
- `text.dfy`: `sep.join`, `split`, `startswith`, substring search, ASCII `lower()`, and `str(n)` with its read-back.
- `ordered_dict.dfy`: a Python `dict` with string keys, modelled as an insertion-ordered list.
  - `d[k] = v` replaces the value in place or appends a new entry.
  - `dict(items)` applies those assignments from left to right.
- `binance_http.dfy`: the Binance client.
  - The caller's payload, which signing changes in place, is the class `Payload`.
  - The client is the class `BinanceHttpClient`.
  - The clock is the argument `nowMs`.
  - The HMAC digest is the function-valued field `hmac`.
  - The network is the argument `transport`, a function from the request sent to the response received.
- `betfair_factories.dfy`: the Betfair factories.
  - The module-level state is the class `Factories`. It holds the environment, `CLIENTS`, both cache slots, and counters that give each new client and provider a fresh identity.
  - Each call is also stated as a pure transition (`ClientCall`, `ProviderCall`), and the lemmas about calls are stated over those transitions.

The surrounding system also has a catalog batch-merge engine. Its source
(`nautilus_trader/persistence/batching.py`) is not part of this model, so the
model covers the adapter code above instead.

Two behaviours of the code are easy to miss, and the model makes both explicit:

- **Two caches, not one.** The client factory itself is wrapped by
  `lru_cache(1)` (nautilus_trader/adapters/betfair/factories.py, line 41), in
  front of the `CLIENTS` registry. A call with exactly the arguments of the
  previous call returns the cached client without reading the environment
  again. `RepeatedCallIgnoresEnv` states this.
- **`|` inside a credential.** The registry key is the `|`-joined credential
  string. Credentials that themselves contain `|` can therefore share a key
  and receive a client built for other credentials. `RegistryKeyCollision`
  exhibits such a pair. `RegistryKeyInjective` shows the key determines
  the credentials when none contains `|`. The cache invariant
  (`MemoCurrent`) is accordingly stated by registry key.

## Model

| member | source | states |
|---|---|---|
| Text.DecimalRoundTrip | nautilus_trader/adapters/binance/http/client.py:108 | `str(now_ms)` is a non-empty digit string with no leading zero (unless it is "0"), and reading it back gives `now_ms` |
| Text.SplitJoin | nautilus_trader/adapters/betfair/factories.py:87 | splitting a join at a one-character separator that no part contains gives the parts back |
| Text.JoinContains | nautilus_trader/adapters/binance/http/client.py:176 | each part of a join occurs in the joined string |
| Text.Join | nautilus_trader/adapters/binance/http/client.py:176 | the empty list joins to the empty string, and a single part joins to itself |
| Text.JoinAppend | nautilus_trader/adapters/betfair/factories.py:87 | joining one more part adds the separator and that part at the end |
| Text.LowerChar | nautilus_trader/adapters/binance/http/client.py:162 | an upper-case ASCII letter becomes the lower-case letter at the same place in the alphabet; any other character is unchanged |
| Text.Lower | nautilus_trader/adapters/binance/http/client.py:162 | `lower()` keeps the length, turns each upper-case ASCII letter into the lower-case letter at the same place in the alphabet, and keeps every other character |
| OrderedDict.Set | nautilus_trader/adapters/binance/http/client.py:108 | after `d[k] = v` the key maps to `v`; a new key is appended at the end; for an existing key the length is unchanged |
| OrderedDict.SetReplacesInPlace | nautilus_trader/adapters/binance/http/client.py:108 | for a key that is present, the value of its first entry is replaced where it stands, and every other entry keeps its place and value |
| OrderedDict.SetOther | nautilus_trader/adapters/binance/http/client.py:111 | assigning one key leaves the value of every other key unchanged |
| OrderedDict.SetKeepsDistinct | nautilus_trader/adapters/binance/http/client.py:108 | assignment never creates a duplicate key |
| OrderedDict.FromItems | nautilus_trader/adapters/betfair/factories.py:133 | `dict(items)` has no repeated key, and the last item's key maps to the last item's value |
| OrderedDict.FromItemsRoundTrip | nautilus_trader/adapters/betfair/factories.py:133 | `dict(tuple(d.items()))` rebuilds `d`, with the same entries in the same order |
| BinanceHttp.PrepareParams | nautilus_trader/adapters/binance/http/client.py:175-176 | an empty payload gives the empty query string |
| BinanceHttp.QueryRoundTrip | nautilus_trader/adapters/binance/http/client.py:175-176 | for a payload whose keys contain neither `&` nor `=` and whose values contain no `&`, the query string lists every entry as `key=value` in the payload's order, with one `&` between neighbours, so parsing it back gives the payload |
| BinanceHttp.PrepareParamsAppend | nautilus_trader/adapters/binance/http/client.py:175-176 | appending an entry appends `&key=value` to the query string, or `key=value` when the payload was empty |
| BinanceHttp.PrepareParamsContains | nautilus_trader/adapters/binance/http/client.py:175-176 | every entry occurs in the query string as `key=value` |
| BinanceHttp.StampedCarriesTimestamp | nautilus_trader/adapters/binance/http/client.py:108-109 | the stamped payload maps `timestamp` to `str(now_ms)`; the signed query string contains `timestamp=<now_ms>`; no other entry changes |
| BinanceHttp.SignatureAppended | nautilus_trader/adapters/binance/http/client.py:108-112 | without a prior `signature`, the signature is computed over the stamped payload and appended as its last entry; the signed query string is the stamped one plus `&signature=<sig>`; no other entry changes |
| BinanceHttp.StampedLacksSignature | nautilus_trader/adapters/binance/http/client.py:108 | setting the timestamp adds no `signature` entry and leaves the payload non-empty |
| BinanceHttp.SignedQuery | nautilus_trader/adapters/binance/http/client.py:111 | appending the signature entry to a non-empty payload appends `&signature=<sig>` to its query string |
| BinanceHttp.SignedQueryString | nautilus_trader/adapters/binance/http/client.py:109-111 | the query string sent by `sign_request` is the one that was signed, followed by `&signature=<sig>` |
| BinanceHttp.EncodedMatchesSigned | nautilus_trader/adapters/binance/http/client.py:132-135 | the encoded URL path is the path, `?`, and exactly the query string that `sign_request` would send |
| BinanceHttp.EncodedRequestShape | nautilus_trader/adapters/binance/http/client.py:130-136 | an encoded signed request sends the empty query string, and its URL is the base URL plus the path, `?`, and the signed query string |
| BinanceHttp.InitialHeaders | nautilus_trader/adapters/binance/http/client.py:67-74 | the headers hold Content-Type, User-Agent = "nautilus-trader/" + version, and X-MBX-APIKEY = key; `timeout` is present exactly when a timeout is given and then holds it; there is no other header |
| BinanceHttp.BaseHeadersLookup | nautilus_trader/adapters/binance/http/client.py:67-71 | the three fixed headers map to their values, and `timeout` is not among them |
| BinanceHttp.HeaderValueFound | nautilus_trader/adapters/binance/http/client.py:168 | the lower-cased name of any received header finds a value |
| BinanceHttp.HeaderValueFrom | nautilus_trader/adapters/binance/http/client.py:168 | a name finds a value only when it matches some received header name, ignoring case, and the value is that header's |
| BinanceHttp.HeaderValueFirst | nautilus_trader/adapters/binance/http/client.py:168 | the value found is that of the first header whose name matches, ignoring case |
| BinanceHttp.UpperCaseLimitHeader | nautilus_trader/adapters/binance/http/client.py:162-166 | the header `X-MBX-USED-WEIGHT-1M` lower-cases to `x-mbx-used-weight-1m`, which is a rate-limit name |
| BinanceHttp.LimitUsageUnique | nautilus_trader/adapters/binance/http/client.py:159-168 | the collected limit usage is determined by the response headers |
| BinanceHttp.CollectLimitUsage | nautilus_trader/adapters/binance/http/client.py:160-168 | every collected key is lower-case, starts with one of the three rate-limit prefixes, and maps to that header's value; every rate-limit header is collected |
| BinanceHttp.HandleException | nautilus_trader/adapters/binance/http/client.py:182-196 | below 400 nothing is raised; 400 to 499 raises a client error; 500 and above raises a server error; the error carries the status, message and headers |
| BinanceHttp.Complete | nautilus_trader/adapters/binance/http/client.py:155-171 | the caller gets nothing exactly for an error response below 400; an error, carrying the status, exactly for an error response of 400 and above, a client error below 500; the received body exactly for a received response |
| BinanceHttp.HandleExceptionByStatusClass | nautilus_trader/adapters/binance/http/client.py:182-196 | on the status codes 100 to 599, classes 1xx to 3xx are ignored, 4xx is a client error, and 5xx is a server error |
| BinanceHttp.BinanceHttpClient.constructor | nautilus_trader/adapters/binance/http/client.py:46-74 | the base URL is the given one when non-empty, `BASE_URL` otherwise; the headers are `InitialHeaders` |
| BinanceHttp.BinanceHttpClient.SendRequest | nautilus_trader/adapters/binance/http/client.py:138-173 | a missing payload is empty; the request goes to base URL + path with the client's headers and the payload's query string; an error response goes through the exception handler; limit usage is collected exactly when enabled and a response was received |
| BinanceHttp.BinanceHttpClient.Query | nautilus_trader/adapters/binance/http/client.py:86-87 | a GET request through `send_request` |
| BinanceHttp.BinanceHttpClient.LimitRequest | nautilus_trader/adapters/binance/http/client.py:89-98 | an unsigned request through `send_request` |
| BinanceHttp.BinanceHttpClient.SignRequest | nautilus_trader/adapters/binance/http/client.py:100-112 | a missing payload is empty; the caller's payload ends stamped and signed (only stamped when there is no secret, which fails); the request sends the signed payload |
| BinanceHttp.BinanceHttpClient.LimitedEncodedSignRequest | nautilus_trader/adapters/binance/http/client.py:114-136 | the caller's payload ends stamped; the request sends no payload, and its path carries the query string and the signature |
| BinanceHttp.Payload.Put | nautilus_trader/adapters/binance/http/client.py:108 | `payload[k] = v` in place, keeping keys distinct |
| BetfairFactories.ResolveCredentials | nautilus_trader/adapters/betfair/factories.py:82-85 | each credential that is `None` or empty is read from its own variable; the call succeeds exactly when every such variable is set; otherwise the first unset variable, in order username, password, app key, cert dir, is reported |
| BetfairFactories.RegistryKeyLayout | nautilus_trader/adapters/betfair/factories.py:87 | the key is username, password, app key and cert dir in that order, with `|` between them |
| BetfairFactories.RegistryKeyInjective | nautilus_trader/adapters/betfair/factories.py:87 | when no credential contains `|`, equal keys mean equal credentials |
| BetfairFactories.RegistryKeyCollision | nautilus_trader/adapters/betfair/factories.py:87 | there are two different credential sets, containing `|`, that share a key |
| BetfairFactories.GetOrCreate | nautilus_trader/adapters/betfair/factories.py:88-101 | afterwards the key is present and the result is the client stored under it; an absent key gets exactly one new client built from the credentials; a present key changes nothing; no other key is added, removed or changed |
| BetfairFactories.ClientCallMiss | nautilus_trader/adapters/betfair/factories.py:82-101 | a call that misses the cache and resolves all four credentials goes to the registry and takes the cache slot |
| BetfairFactories.ClientCallPreservesValid | nautilus_trader/adapters/betfair/factories.py:38-101 | a call keeps every client stored under its own key with a unique identity, and keeps the cached client in the registry; in an unchanged environment the cache stays current |
| BetfairFactories.ClientCallResult | nautilus_trader/adapters/betfair/factories.py:88-101 | a returned client is stored under its key; no entry is removed or changed; at most one client is created, under a key that was absent |
| BetfairFactories.ExistingClientReturned | nautilus_trader/adapters/betfair/factories.py:51-54 | when the registry invariant holds and the cached arguments still resolve to the cached client's key (`RegistryValid`, `MemoCurrent`), a client already registered under the key of the resolved credentials is returned, and nothing is created |
| BetfairFactories.SameCredentialsSameClient | nautilus_trader/adapters/betfair/factories.py:82-101 | when the registry invariant holds and the cache is current (`RegistryValid`, `MemoCurrent`), two calls whose arguments resolve to the same credentials return the same client, and the second creates nothing |
| BetfairFactories.RepeatedCallIgnoresEnv | nautilus_trader/adapters/betfair/factories.py:41-42 | a call with the previous call's arguments returns the cached client whatever the environment now holds |
| BetfairFactories.ProviderMatchesArgs | nautilus_trader/adapters/betfair/factories.py:132-134 | the provider returned has the given client and logger and the filter `dict(market_filter)`, which for a filter from a dict is that dict |
| BetfairFactories.ProviderRepeat | nautilus_trader/adapters/betfair/factories.py:104-105 | calling again with the previous call's arguments returns the same provider and changes nothing |
| BetfairFactories.ProviderReplace | nautilus_trader/adapters/betfair/factories.py:104-134 | calling with other arguments builds a new provider and replaces the slot |
| BetfairFactories.AccountNumber | nautilus_trader/adapters/betfair/factories.py:267 | the account number is the value of the variable the config names (no name means the name ""), or "001" when that variable is not set; every case of a named or absent `account_id` and a set or unset variable is stated |
| BetfairFactories.MarketFilterOf | nautilus_trader/adapters/betfair/factories.py:180 | the market filter is the configured one, and `{}` when the config has none |
| BetfairFactories.Factories.constructor | nautilus_trader/adapters/betfair/factories.py:38 | the registry and both cache slots start empty |
| BetfairFactories.Factories.GetCachedBetfairClient | nautilus_trader/adapters/betfair/factories.py:41-101 | the call is `ClientCall` on the registry and cache state; it keeps the registry invariant and keeps the cache current for the environment; the provider cache and the environment do not change |
| BetfairFactories.Factories.GetCachedBetfairInstrumentProvider | nautilus_trader/adapters/betfair/factories.py:104-134 | the call is `ProviderCall` on the provider cache; the client registry does not change |
| BetfairFactories.Factories.CreateDataClient | nautilus_trader/adapters/betfair/factories.py:180-205 | the market filter defaults to empty; a client error propagates with the provider cache unchanged; otherwise the data client has the client, the cached provider of that client and filter, and the filter; when the config's filter has no repeated key, the provider's filter is that filter |
| BetfairFactories.Factories.CreateExecutionClient | nautilus_trader/adapters/betfair/factories.py:252-285 | as for the data client, plus the account id (venue BETFAIR, number by `AccountNumber`) and the configured base currency |

## Left out

- Network transport, `aiohttp`, `async`/`await` and the event loop: I/O and cooperative concurrency. The network is the `transport` parameter, and `send_request` is modelled as the request it sends and the outcome it hands back.
- JSON decoding with `orjson` and the decode-error log (client.py, lines 170-173): a foreign library. The model hands back the raw body.
- The HMAC-SHA256 digest of `_get_sign` (HMAC of RFC 2104 over SHA-256 of FIPS 180-4): the uninterpreted `hmac` field of the client. `.encode()` of the secret and data is not modelled.
- `BinanceHttp.BinanceHttpClient.Sign`: only the edge of the digest. It fails when there is no secret, and otherwise applies `hmac` to the secret and the data; nothing about the digest itself is stated.
- The clock: `timestamp_ms()` is the `nowMs` argument.
- `BinanceHttpClient.SendRequest`: the source computes `limit_usage` and discards it. The model returns it, so its content can be stated.
- `Text.Lower`: Python's `str.lower()` is modelled on ASCII letters only; other Unicode case mappings are not covered.
- The case-insensitive header multidict of `aiohttp`: response headers are a list of name/value pairs, and `resp.headers[key]` is the first value whose name matches ignoring ASCII case.
- `BinanceHttp.BinanceHttpClient.SignRequest`: a missing secret makes `_get_sign` raise `AttributeError`. The model reports this as `SecretNotSet`, after the timestamp has been set, as in the source.
- The `api_key` and `headers` properties: plain field reads, visible as the client's fields.
- The construction internals of `BetfairClient`, `BetfairInstrumentProvider`, `BetfairDataClient` and `BetfairExecutionClient`: foreign classes. Each is a fresh identity, or a record of what it is built from. The message bus, cache, clock and name arguments of the factories are not used by the modelled logic and are omitted.
- `Currency.from_str` of the base currency: foreign. The execution client records the configured string.
- `BETFAIR_VENUE`: its definition (nautilus_trader/adapters/betfair/common.py) is not part of this model. Its value is taken to be "BETFAIR".
- Logger warnings in the two Betfair cache functions: output only.
- Thread safety and hashing in `lru_cache`: only its one-slot semantics are modelled. The cache compares arguments by equality. Keyword and positional spellings of the same arguments are treated as one key; in Python they are distinct keys, but both factories always call with keywords.
- A configuration value that is present but explicitly `None`: the model treats it as absent. This matters only for `market_filter` and `account_id`, where `config.get` would return `None` rather than the default.
- The catalog batch-merge engine, whose source (nautilus_trader/persistence/batching.py) is not part of this model. Its test (tests/unit_tests/persistence/test_batching.py) cannot be checked against code that is not available.
- tests/unit_tests/serialization/test_serialization_msgpack.py: `MsgPackSerializer` and the event classes are not part of this model.
- tests/integration_tests/adapters/binance/resources/http_spot_account_sandbox.py: a live-network script without logic of its own.
